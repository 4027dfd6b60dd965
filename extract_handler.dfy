/**
 * The per-record control flow of the extraction `handler` in
 * backend/src/extract.ts: fetch the attachment, ask the model, repair an
 * unparseable reply once, normalise, reconcile, score, and write a terminal
 * status, falling back to FAILED when the COMPLETED write is rejected.
 * Storage, the model service, `JSON.parse` and the clock are parameters; the
 * prompts are opaque configuration.
 */
module ExtractHandler {
  import opened Wrappers
  import opened Strings
  import opened Json
  import opened Invoice
  import opened Bedrock
  import opened Extract
  import opened Reconcile
  import opened ConfidenceScore

  /** The fixed snippet recorded for visual processing: "(PDF processed visually by AI)". */
  const VisualSnippet := "(" + "PDF processed" + " visually by AI)"

  const ParseFailure := "Failed to parse AI response as JSON"

  /** The model used when `BEDROCK_MODEL_ID` is not set. */
  const DefaultModelId := "anthropic.claude-3-5-sonnet-20240620-v1:0"

  /** The environment and the fixed prompts; `repairPrompt` is `buildRepairPrompt`. */
  datatype Config = Config(
    bucket: string,
    modelId: string,
    fallbackId: string,
    extractionPrompt: string,
    repairPrompt: string -> string)

  /** The queue message's fields, as destructured from the parsed record body. */
  datatype Payload = Payload(
    messageId: Value, attachmentId: Value, attachmentKey: Value,
    receivedAt: Value, from: Value, subject: Value)

  /** The fields of a record's terminal update. */
  datatype Update =
    | CompletedUpdate(
        updatedAt: string, extractedJson: Extraction, confidence: real,
        vendorName: Value, invoiceNumber: Value, currency: Value,
        totalAmount: Option<Decimal>, modelUsed: string)
    | FailedUpdate(updatedAt: string, errors: seq<string>)

  datatype Write = Write(messageId: Value, attachmentKey: Value, update: Update)

  /**
   * The invoice table. Every `updateItem` call is appended to `writes`;
   * `reject` says whether the service rejects the n-th call, and with which
   * error message.
   */
  class InvoiceTable {
    var writes: seq<Write>
    const reject: (nat, Write) -> Option<string>

    constructor (reject: (nat, Write) -> Option<string>)
      ensures writes == [] && this.reject == reject
    {
      writes := [];
      this.reject := reject;
    }

    method UpdateItem(w: Write) returns (err: Option<string>)
      modifies this
      ensures writes == old(writes) + [w]
      ensures err == reject(|old(writes)|, w)
    {
      err := reject(|writes|, w);
      writes := writes + [w];
    }
  }

  /** The model of the last request sent. */
  function LastModel(sent: seq<Request>): string
    requires |sent| > 0
  {
    sent[|sent| - 1].modelId
  }

  /** What the `try` block produces before the database write. */
  datatype Completion = Completion(extracted: Extraction, confidence: real, modelUsed: string)

  /** The `TypeError` of `attachmentKey.toLowerCase()` on a key that is not a string. */
  function LowerCaseError(key: Value): string {
    if key.Null? then "Cannot read properties of null (reading 'toLowerCase')"
    else if key.Undef? then "Cannot read properties of undefined (reading 'toLowerCase')"
    else "attachmentKey.toLowerCase is not a function"
  }

  /** The only warning tokens reconciliation can log. */
  predicate KnownToken(w: string) { w == TaggedPrepayment || w == SanitizedPurchaseOrder }

  predicate AllKnown(ws: seq<string>) { forall i :: 0 <= i < |ws| ==> KnownToken(ws[i]) }

  /** The snippet trims to itself and names visual processing. */
  lemma VisualSnippetFacts()
    ensures Trim(VisualSnippet) == VisualSnippet
    ensures VisualProcessing(VisualSnippet)
  {
    var s := VisualSnippet;
    assert !IsSpace(s[0]) && !IsSpace(s[|s| - 1]);
    TrimOfTrimmed(s);
    assert OccursAt(s, "PDF processed", 1) by {
      assert s[1..14] == "PDF processed";
    }
    ContainsIff(s, "PDF processed");
  }

  /** A known token does not start with "reconciled_". */
  lemma KnownNotReconciled(w: string)
    requires KnownToken(w)
    ensures !StartsWith(w, ReconciledPrefix)
  {
    assert w[0] != 'r';
  }

  /**
   * With the handler's fixed snippet and only reconciliation's tokens, the
   * short-snippet and reconciled ceilings never apply: only the template and
   * zero-total ceilings can lower the score.
   */
  lemma HandlerCeilings(x: Extraction)
    requires x.meta.Some? && x.meta.value.extractedTextSnippet == VisualSnippet
    requires AllKnown(x.meta.value.warnings)
    ensures !ShortSnippet(x) && !Reconciled(x)
    ensures Confidence(x) == Min(Base(x), if LooksLikeTemplate(x) || ZeroTotal(x) then TemplateCeiling else 1.0)
  {
    VisualSnippetFacts();
    var w := x.meta.value.warnings;
    forall i | 0 <= i < |w|
      ensures !StartsWith(w[i], ReconciledPrefix)
    {
      KnownNotReconciled(w[i]);
    }
    ConfidenceIsCappedBase(x);
  }

  /**
   * The record the handler stores for the normalised reply `n` answered by
   * `modelUsed`: reconciled, and given its metadata with the score `score`.
   */
  function Stored(n: Extraction, modelUsed: string, p: Payload, score: real): Extraction {
    Extraction(n.vendor, ReconciledHeader(n.invoice), n.lineItems,
               Some(Meta(p.messageId, p.receivedAt, p.from, p.subject, p.attachmentKey,
                         modelUsed, score, ReconcileTokens(n.invoice), VisualSnippet)))
  }

  lemma StoredIs(n: Extraction, modelUsed: string, p: Payload, score: real, h: Header, tokens: seq<string>)
    requires h == ReconciledHeader(n.invoice) && tokens == ReconcileTokens(n.invoice)
    ensures Stored(n, modelUsed, p, score)
            == Extraction(n.vendor, h, n.lineItems,
                          Some(Meta(p.messageId, p.receivedAt, p.from, p.subject, p.attachmentKey,
                                    modelUsed, score, tokens, VisualSnippet)))
  {
  }

  /** Writing the score back does not change it: the scorer does not read `confidenceScore`. */
  lemma StoredScoreIsStable(n: Extraction, modelUsed: string, p: Payload, score: real)
    ensures Confidence(Stored(n, modelUsed, p, score)) == Confidence(Stored(n, modelUsed, p, 0.0))
  {
    ConfidenceReadsOnly(Stored(n, modelUsed, p, score), Stored(n, modelUsed, p, 0.0));
  }

  /** A stored record carries only known tokens. */
  lemma StoredTokensKnown(n: Extraction, modelUsed: string, p: Payload, score: real)
    ensures AllKnown(Stored(n, modelUsed, p, score).meta.value.warnings)
  {
    ReconcileTokensKnown(n.invoice);
  }

  /** What a COMPLETED outcome promises about its record. */
  predicate Scored(c: Completion, p: Payload) {
    var x := c.extracted;
    x.meta.Some? && x.meta.value.extractionModel == c.modelUsed
    && x.meta.value.confidenceScore == c.confidence && c.confidence == Confidence(x)
    && x.meta.value.extractedTextSnippet == VisualSnippet && AllKnown(x.meta.value.warnings)
  }

  /** A COMPLETED score is capped only by the template and zero-total ceilings. */
  lemma CompletedCeilings(c: Completion, p: Payload)
    requires Scored(c, p)
    ensures !ShortSnippet(c.extracted) && !Reconciled(c.extracted)
    ensures c.confidence == Min(Base(c.extracted),
                                if LooksLikeTemplate(c.extracted) || ZeroTotal(c.extracted) then TemplateCeiling else 1.0)
  {
    HandlerCeilings(c.extracted);
  }


  // ---------------------------------------------------------------------------
  // Steps 5 to 7: normalise, reconcile, add the metadata, score
  // ---------------------------------------------------------------------------

  /**
   * What steps 6 and 7 make of the normalised reply `n` answered by
   * `modelUsed`: the stored record and its score, or the `TypeError` that
   * reconciliation or scoring throws on a field that does not convert.
   */
  function FinishOutcome(p: Payload, n: Extraction, modelUsed: string): Result<Completion> {
    if !TextConvertible(n.invoice.invoiceType) || !TextConvertible(n.invoice.purchaseOrderNumber) then
      Err(ConversionError)
    else
      var unscored := Stored(n, modelUsed, p, 0.0);
      if ScoringThrows(unscored) then Err(ConversionError)
      else Ok(Completion(Stored(n, modelUsed, p, Confidence(unscored)), Confidence(unscored), modelUsed))
  }

  /** Steps 6 and 7 on the record in place: `Reconcile`, the metadata, then the score. */
  method Finish(p: Payload, n: Extraction, modelUsed: string) returns (r: Result<Completion>)
    ensures r == FinishOutcome(p, n, modelUsed)
  {
    var rec := new InvoiceRecord(n);
    var warnings := new WarningLog();
    assert rec.vendor == n.vendor && rec.invoice == n.invoice && rec.lineItems == n.lineItems;
    var thrown := Reconcile.Reconcile(rec, warnings);
    if thrown.Some? {
      return Err(thrown.value);
    }
    ghost var h := ReconciledHeader(n.invoice);
    ghost var tokens := ReconcileTokens(n.invoice);
    assert rec.invoice == h && warnings.tokens == tokens;
    rec.meta := Some(Meta(p.messageId, p.receivedAt, p.from, p.subject, p.attachmentKey,
                          modelUsed, 0.0, warnings.tokens, VisualSnippet));
    StoredIs(n, modelUsed, p, 0.0, h, tokens);
    var confidence := CalculateConfidence(rec.Snapshot());
    if confidence.Err? {
      return Err(confidence.message);
    }
    rec.meta := Some(rec.meta.value.(confidenceScore := confidence.value));
    StoredIs(n, modelUsed, p, confidence.value, h, tokens);
    r := Ok(Completion(rec.Snapshot(), confidence.value, modelUsed));
  }

  /**
   * A finished record satisfies everything a COMPLETED outcome promises, and
   * what stops it is always the conversion `TypeError`.
   */
  lemma FinishScored(p: Payload, n: Extraction, modelUsed: string)
    ensures var r := FinishOutcome(p, n, modelUsed);
      && (r.Err? ==> r.message == ConversionError)
      && (r.Ok? ==> r.value.modelUsed == modelUsed && Scored(r.value, p) && 0.0 <= r.value.confidence <= 1.0)
  {
    var r := FinishOutcome(p, n, modelUsed);
    if r.Ok? {
      StoredScoreIsStable(n, modelUsed, p, r.value.confidence);
      StoredTokensKnown(n, modelUsed, p, r.value.confidence);
      ConfidenceInUnitInterval(r.value.extracted);
    }
  }

  /** Every field the steps read as text, in the normalised reply `n`, converts. */
  predicate TextFields(n: Extraction) {
    && TextConvertible(n.invoice.invoiceType)
    && TextConvertible(n.invoice.purchaseOrderNumber)
    && TextConvertible(n.vendor.name)
    && TextConvertible(n.invoice.invoiceNumber)
    && TextConvertible(n.invoice.currency)
    && forall i :: 0 <= i < |Items(n)| ==> TextConvertible(Get(Items(n)[i], "description"))
  }

  /** A reply whose text fields all convert always finishes. */
  lemma TextFieldsFinish(p: Payload, n: Extraction, modelUsed: string)
    requires TextFields(n)
    ensures FinishOutcome(p, n, modelUsed).Ok?
  {
    StoredConverts(n, modelUsed, p, 0.0);
  }

  /** The scorer reads the same text fields in the stored record as in `n`. */
  lemma StoredConverts(n: Extraction, modelUsed: string, p: Payload, score: real)
    requires TextFields(n)
    ensures !ScoringThrows(Stored(n, modelUsed, p, score))
  {
    var x := Stored(n, modelUsed, p, score);
    assert x.vendor == n.vendor && x.lineItems == n.lineItems;
    assert Items(x) == Items(n);
    ConvertibleFieldsScore(x);
  }

  // ---------------------------------------------------------------------------
  // Steps 1 to 4: fetch, prepare, ask, repair
  // ---------------------------------------------------------------------------

  /** A model reply: its raw text, what `parseJsonResponse` made of it, and the model that answered. */
  datatype Answer = Answer(text: Value, value: Value, modelId: string)

  /** `parseJsonResponse` on the text of an `invokeBedrock` outcome. */
  function AnswerOf(reply: Result<Reply>, parse: string -> ParseOutcome): Result<Answer> {
    if reply.Err? then Err(reply.message)
    else
      match ParseJsonResponse(reply.value.text, parse)
      case Err(m) => Err(m)
      case Ok(v) => Ok(Answer(reply.value.text, v, reply.value.modelId))
  }

  /** `invokeBedrock` then `parseJsonResponse`, the first request being the `n`-th the service sees. */
  function QueryOutcome(respond: (nat, Request) -> SendOutcome, n: nat, parse: string -> ParseOutcome,
                        fallbackId: string, modelId: string, prompt: string, docs: seq<Document>)
    : (Result<Answer>, seq<Request>)
  {
    var invoked := Invocation(respond, n, parse, fallbackId, modelId, prompt, docs);
    (AnswerOf(invoked.0, parse), invoked.1)
  }

  /** `invokeBedrock` followed by `parseJsonResponse` on its text. */
  method Query(client: ModelClient, parse: string -> ParseOutcome, fallbackId: string,
               modelId: string, prompt: string, docs: seq<Document>) returns (r: Result<Answer>)
    modifies client
    ensures var q := QueryOutcome(client.respond, |old(client.sent)|, parse, fallbackId, modelId, prompt, docs);
      r == q.0 && client.sent == old(client.sent) + q.1
  {
    var response := InvokeBedrock(client, parse, fallbackId, modelId, prompt, docs);
    if response.Err? {
      return Err(response.message);
    }
    var parsed := ParseJsonResponse(response.value.text, parse);
    if parsed.Err? {
      return Err(parsed.message);
    }
    r := Ok(Answer(response.value.text, parsed.value, response.value.modelId));
  }

  /**
   * One query sends one or two requests, the first to the requested model,
   * all with the same prompt and documents, and an answer names the model of
   * the last one.
   */
  lemma QueryRequests(respond: (nat, Request) -> SendOutcome, n: nat, parse: string -> ParseOutcome,
                      fallbackId: string, modelId: string, prompt: string, docs: seq<Document>)
    ensures var a, rq := QueryOutcome(respond, n, parse, fallbackId, modelId, prompt, docs).0,
                         QueryOutcome(respond, n, parse, fallbackId, modelId, prompt, docs).1;
      && 1 <= |rq| <= 2 && rq[0] == RequestFor(modelId, prompt, docs)
      && SentWith(rq, prompt, docs) && ModelsAmong(rq, modelId, fallbackId)
      && (a.Ok? ==> a.value.modelId == LastModel(rq))
  {
    AtMostTwoRequests(respond, n, parse, fallbackId, modelId, prompt, docs);
    InvocationRequests(respond, n, parse, fallbackId, modelId, prompt, docs);
    ReplyNamesInvokedModel(respond, n, parse, fallbackId, modelId, prompt, docs);
  }

  /**
   * A reply that parses to nothing has a string or no text at all, so
   * `buildRepairPrompt(response.text ?? "")` always receives a string.
   */
  lemma RepairInputIsText(respond: (nat, Request) -> SendOutcome, n: nat, parse: string -> ParseOutcome,
                          fallbackId: string, modelId: string, prompt: string, docs: seq<Document>)
    ensures var a := QueryOutcome(respond, n, parse, fallbackId, modelId, prompt, docs).0;
      a.Ok? && !Truthy(a.value.value) ==> a.value.text.Str? || IsNullish(a.value.text)
  {
  }

  /** The repair prompt for the first reply's text. */
  function RepairPromptFor(cfg: Config, text: Value): string {
    cfg.repairPrompt(TextOf(text))
  }

  /** The repair call: the repair prompt, no documents, and `null` read as a parse failure. */
  function RepairOutcome(cfg: Config, respond: (nat, Request) -> SendOutcome, n: nat,
                         parse: string -> ParseOutcome, text: Value)
    : (r: (Result<(Value, string)>, seq<Request>))
    ensures r.0.Ok? ==> Truthy(r.0.value.0)
  {
    var q := QueryOutcome(respond, n, parse, cfg.fallbackId, cfg.modelId, RepairPromptFor(cfg, text), []);
    var repair := q.0;
    if repair.Err? then (Err(repair.message), q.1)
    else if !Truthy(repair.value.value) then (Err(ParseFailure), q.1)
    else (Ok((repair.value.value, repair.value.modelId)), q.1)
  }

  /** The fetch succeeded and the key is a string, so a document is prepared. */
  predicate Fetched(cfg: Config, fetch: (string, Value) -> Result<seq<bv8>>, p: Payload) {
    fetch(cfg.bucket, p.attachmentKey).Ok? && p.attachmentKey.Str?
  }

  function DocumentFor(cfg: Config, fetch: (string, Value) -> Result<seq<bv8>>, p: Payload): Document
    requires Fetched(cfg, fetch, p)
  {
    PrepareDocument(p.attachmentKey.s, fetch(cfg.bucket, p.attachmentKey).value)
  }

  /**
   * Steps 1 to 4: the parsed reply and the model that produced it, or what
   * was thrown, with the requests sent from the `n`-th on.
   */
  function AskOutcome(cfg: Config, respond: (nat, Request) -> SendOutcome, n: nat,
                      fetch: (string, Value) -> Result<seq<bv8>>, parse: string -> ParseOutcome, p: Payload)
    : (r: (Result<(Value, string)>, seq<Request>))
    ensures r.0.Ok? ==> Truthy(r.0.value.0)
  {
    var data := fetch(cfg.bucket, p.attachmentKey);
    if data.Err? then (Err(data.message), [])
    else if !p.attachmentKey.Str? then (Err(LowerCaseError(p.attachmentKey)), [])
    else DocumentOutcome(cfg, respond, n, parse, DocumentFor(cfg, fetch, p))
  }

  /** Steps 3 and 4 for the prepared document `doc`. */
  function DocumentOutcome(cfg: Config, respond: (nat, Request) -> SendOutcome, n: nat,
                           parse: string -> ParseOutcome, doc: Document)
    : (r: (Result<(Value, string)>, seq<Request>))
    ensures r.0.Ok? ==> Truthy(r.0.value.0)
  {
    Then(cfg, respond, n, parse, QueryOutcome(respond, n, parse, cfg.fallbackId, cfg.modelId, cfg.extractionPrompt, [doc]))
  }

  /** The first query `q`, sent from the `n`-th request on, followed by step 4. */
  function Then(cfg: Config, respond: (nat, Request) -> SendOutcome, n: nat,
                parse: string -> ParseOutcome, q: (Result<Answer>, seq<Request>))
    : (r: (Result<(Value, string)>, seq<Request>))
    ensures r.0.Ok? ==> Truthy(r.0.value.0)
  {
    var f := FollowUpOutcome(cfg, respond, n + |q.1|, parse, q.0);
    (f.0, q.1 + f.1)
  }

  /** Step 4 after the first answer: keep a parsed reply, otherwise ask with the repair prompt. */
  function FollowUpOutcome(cfg: Config, respond: (nat, Request) -> SendOutcome, n: nat,
                           parse: string -> ParseOutcome, first: Result<Answer>)
    : (r: (Result<(Value, string)>, seq<Request>))
    ensures r.0.Ok? ==> Truthy(r.0.value.0)
  {
    if first.Err? then (Err(first.message), [])
    else if Truthy(first.value.value) then (Ok((first.value.value, first.value.modelId)), [])
    else RepairOutcome(cfg, respond, n, parse, first.value.text)
  }

  /**
   * Steps 1 to 4: fetch, prepare, ask the model, and ask once more with the
   * repair prompt and no documents when the first reply does not parse.
   */
  method Ask(cfg: Config, client: ModelClient, fetch: (string, Value) -> Result<seq<bv8>>,
             parse: string -> ParseOutcome, p: Payload) returns (r: Result<(Value, string)>)
    modifies client
    ensures var o := AskOutcome(cfg, client.respond, |old(client.sent)|, fetch, parse, p);
      r == o.0 && client.sent == old(client.sent) + o.1
  {
    var data := fetch(cfg.bucket, p.attachmentKey);
    if data.Err? {
      return Err(data.message);
    }
    if !p.attachmentKey.Str? {
      return Err(LowerCaseError(p.attachmentKey));
    }
    var doc := PrepareDocument(p.attachmentKey.s, data.value);
    r := AskDocument(cfg, client, parse, doc);
  }

  /** Steps 3 and 4: ask the model, and ask once more with the repair prompt when nothing parses. */
  method AskDocument(cfg: Config, client: ModelClient, parse: string -> ParseOutcome, doc: Document)
    returns (r: Result<(Value, string)>)
    modifies client
    ensures var o := DocumentOutcome(cfg, client.respond, |old(client.sent)|, parse, doc);
      r == o.0 && client.sent == old(client.sent) + o.1
  {
    ghost var sent0 := client.sent;
    var docs := [doc];
    var first := Query(client, parse, cfg.fallbackId, cfg.modelId, cfg.extractionPrompt, docs);
    ghost var sent1 := client.sent;
    r := FollowUp(cfg, client, parse, first);
    DocumentSent(cfg, client.respond, parse, doc, docs, sent0, sent1, client.sent, first, r);
  }

  /** The requests and the result of steps 3 and 4, from those of the query and of its follow-up. */
  lemma DocumentSent(cfg: Config, respond: (nat, Request) -> SendOutcome, parse: string -> ParseOutcome,
                     doc: Document, docs: seq<Document>, sent0: seq<Request>, sent1: seq<Request>,
                     sent2: seq<Request>, first: Result<Answer>, r: Result<(Value, string)>)
    requires docs == [doc]
    requires var q := QueryOutcome(respond, |sent0|, parse, cfg.fallbackId, cfg.modelId, cfg.extractionPrompt, docs);
      first == q.0 && sent1 == sent0 + q.1
    requires var f := FollowUpOutcome(cfg, respond, |sent1|, parse, first);
      r == f.0 && sent2 == sent1 + f.1
    ensures var o := DocumentOutcome(cfg, respond, |sent0|, parse, doc);
      r == o.0 && sent2 == sent0 + o.1
  {
    var n := |sent0|;
    var q := QueryOutcome(respond, n, parse, cfg.fallbackId, cfg.modelId, cfg.extractionPrompt, docs);
    var f := FollowUpOutcome(cfg, respond, |sent1|, parse, first);
    assert |sent1| == n + |q.1|;
    DocumentOutcomeIs(cfg, respond, n, |sent1|, parse, doc, docs, q, first, f);
    Associates(sent0, q.1, f.1);
  }

  /** The outcome of steps 3 and 4 from the outcomes of the query and of its follow-up. */
  lemma DocumentOutcomeIs(cfg: Config, respond: (nat, Request) -> SendOutcome, n: nat, k: nat,
                          parse: string -> ParseOutcome, doc: Document, docs: seq<Document>,
                          q: (Result<Answer>, seq<Request>), first: Result<Answer>,
                          f: (Result<(Value, string)>, seq<Request>))
    requires docs == [doc] && q == QueryOutcome(respond, n, parse, cfg.fallbackId, cfg.modelId, cfg.extractionPrompt, docs)
    requires k == n + |q.1| && first == q.0
    requires f == FollowUpOutcome(cfg, respond, k, parse, first)
    ensures DocumentOutcome(cfg, respond, n, parse, doc) == (f.0, q.1 + f.1)
  {
    ThenIs(cfg, respond, n, k, parse, q, first, f);
  }

  lemma ThenIs(cfg: Config, respond: (nat, Request) -> SendOutcome, n: nat, k: nat,
               parse: string -> ParseOutcome, q: (Result<Answer>, seq<Request>), first: Result<Answer>,
               f: (Result<(Value, string)>, seq<Request>))
    requires k == n + |q.1| && first == q.0
    requires f == FollowUpOutcome(cfg, respond, k, parse, first)
    ensures Then(cfg, respond, n, parse, q) == (f.0, q.1 + f.1)
  {
  }

  method FollowUp(cfg: Config, client: ModelClient, parse: string -> ParseOutcome, first: Result<Answer>)
    returns (r: Result<(Value, string)>)
    modifies client
    ensures var o := FollowUpOutcome(cfg, client.respond, |old(client.sent)|, parse, first);
      r == o.0 && client.sent == old(client.sent) + o.1
  {
    if first.Err? {
      return Err(first.message);
    }
    if Truthy(first.value.value) {
      return Ok((first.value.value, first.value.modelId));
    }
    r := Repair(cfg, client, parse, first.value.text);
  }

  method Repair(cfg: Config, client: ModelClient, parse: string -> ParseOutcome, text: Value)
    returns (r: Result<(Value, string)>)
    modifies client
    ensures var o := RepairOutcome(cfg, client.respond, |old(client.sent)|, parse, text);
      r == o.0 && client.sent == old(client.sent) + o.1
  {
    var prompt := cfg.repairPrompt(TextOf(text));
    var repair := Query(client, parse, cfg.fallbackId, cfg.modelId, prompt, []);
    if repair.Err? {
      return Err(repair.message);
    }
    if !Truthy(repair.value.value) {
      return Err(ParseFailure);
    }
    r := Ok((repair.value.value, repair.value.modelId));
  }

  /**
   * The requests of steps 3 and 4, given the first query's answer `first`
   * and requests `rq1`: first the extraction prompt with the document (one or
   * two requests, the first to the configured model), then, exactly when that
   * reply parses to nothing, the repair prompt with no documents (one or two
   * more, the first again to the configured model).
   */
  predicate AskSent(cfg: Config, doc: Document, first: Result<Answer>, rq1: seq<Request>, rq: seq<Request>) {
    && rq1 <= rq && 1 <= |rq1| <= 2 && |rq| <= |rq1| + 2
    && rq[0] == RequestFor(cfg.modelId, cfg.extractionPrompt, [doc])
    && SentWith(rq1, cfg.extractionPrompt, [doc])
    && (|rq| > |rq1| <==> first.Ok? && !Truthy(first.value.value))
    && (|rq| > |rq1| ==> rq[|rq1|].modelId == cfg.modelId && SentWith(rq[|rq1|..], RepairPromptFor(cfg, first.value.text), []))
  }

  /** What steps 3 and 4 send for a prepared document; a parsed reply names the model of the last request. */
  lemma DocumentRequests(cfg: Config, respond: (nat, Request) -> SendOutcome, n: nat,
                         parse: string -> ParseOutcome, doc: Document)
    ensures var outcome := DocumentOutcome(cfg, respond, n, parse, doc);
      var r, rq := outcome.0, outcome.1;
      var q := QueryOutcome(respond, n, parse, cfg.fallbackId, cfg.modelId, cfg.extractionPrompt, [doc]);
      && AskSent(cfg, doc, q.0, q.1, rq)
      && ModelsAmong(rq, cfg.modelId, cfg.fallbackId)
      && (r.Ok? ==> |rq| > 0 && r.value.1 == LastModel(rq))
  {
    var query := QueryOutcome(respond, n, parse, cfg.fallbackId, cfg.modelId, cfg.extractionPrompt, [doc]);
    var first, rq1 := query.0, query.1;
    var docs, m := [doc], n + |rq1|;
    QueryRequests(respond, n, parse, cfg.fallbackId, cfg.modelId, cfg.extractionPrompt, docs);
    FollowUpRequests(cfg, respond, m, parse, doc, first, rq1);
    DocumentOutcomeIs(cfg, respond, n, m, parse, doc, docs, query, first, FollowUpOutcome(cfg, respond, m, parse, first));
  }

  /** The follow-up of `DocumentRequests`, for any first query that sent `rq1`. */
  lemma FollowUpRequests(cfg: Config, respond: (nat, Request) -> SendOutcome, m: nat,
                         parse: string -> ParseOutcome, doc: Document, first: Result<Answer>, rq1: seq<Request>)
    requires 1 <= |rq1| <= 2 && rq1[0] == RequestFor(cfg.modelId, cfg.extractionPrompt, [doc])
    requires SentWith(rq1, cfg.extractionPrompt, [doc]) && ModelsAmong(rq1, cfg.modelId, cfg.fallbackId)
    requires first.Ok? ==> first.value.modelId == LastModel(rq1)
    ensures var follow := FollowUpOutcome(cfg, respond, m, parse, first);
      var r, rq2 := follow.0, follow.1;
      && AskSent(cfg, doc, first, rq1, rq1 + rq2)
      && ModelsAmong(rq1 + rq2, cfg.modelId, cfg.fallbackId)
      && (r.Ok? ==> r.value.1 == LastModel(rq1 + rq2))
  {
    if first.Ok? && !Truthy(first.value.value) {
      var prompt := RepairPromptFor(cfg, first.value.text);
      var rq2 := RepairOutcome(cfg, respond, m, parse, first.value.text).1;
      QueryRequests(respond, m, parse, cfg.fallbackId, cfg.modelId, prompt, []);
      AskRequestsJoin(cfg, doc, rq1, rq2, prompt);
    } else {
      assert rq1 + [] == rq1;
    }
  }

  /**
   * What steps 1 to 4 send: nothing when the fetch fails or the key is not a
   * string; otherwise the requests of `DocumentRequests`.
   */
  lemma AskRequests(cfg: Config, respond: (nat, Request) -> SendOutcome, n: nat,
                    fetch: (string, Value) -> Result<seq<bv8>>, parse: string -> ParseOutcome, p: Payload)
    ensures var outcome := AskOutcome(cfg, respond, n, fetch, parse, p);
      var r, rq := outcome.0, outcome.1;
      && (!Fetched(cfg, fetch, p) ==> r.Err? && rq == [])
      && (Fetched(cfg, fetch, p) ==> (r, rq) == DocumentOutcome(cfg, respond, n, parse, DocumentFor(cfg, fetch, p)) && rq != [])
      && ModelsAmong(rq, cfg.modelId, cfg.fallbackId)
      && (r.Ok? ==> |rq| > 0 && r.value.1 == LastModel(rq))
  {
    if Fetched(cfg, fetch, p) {
      DocumentRequests(cfg, respond, n, parse, DocumentFor(cfg, fetch, p));
    }
  }

  /** The two halves of a repaired ask, joined. */
  lemma AskRequestsJoin(cfg: Config, doc: Document, rq1: seq<Request>, rq2: seq<Request>, prompt: string)
    requires 1 <= |rq1| && 1 <= |rq2| && rq2[0].modelId == cfg.modelId
    requires ModelsAmong(rq1, cfg.modelId, cfg.fallbackId) && ModelsAmong(rq2, cfg.modelId, cfg.fallbackId)
    requires SentWith(rq2, prompt, [])
    ensures rq1 <= rq1 + rq2 && (rq1 + rq2)[|rq1|..] == rq2 && (rq1 + rq2)[0] == rq1[0]
    ensures ModelsAmong(rq1 + rq2, cfg.modelId, cfg.fallbackId)
    ensures LastModel(rq1 + rq2) == LastModel(rq2)
  {
    assert (rq1 + rq2)[|rq1|..] == rq2;
    forall i | 0 <= i < |rq1 + rq2|
      ensures (rq1 + rq2)[i].modelId == cfg.modelId || (rq1 + rq2)[i].modelId == cfg.fallbackId
    {
      if i >= |rq1| {
        assert (rq1 + rq2)[i] == rq2[i - |rq1|];
      }
    }
  }

  /** The `try` block up to the COMPLETED write: steps 1 to 4, then 5 to 7 on the parsed reply. */
  function AttemptOutcome(cfg: Config, respond: (nat, Request) -> SendOutcome, n: nat,
                          fetch: (string, Value) -> Result<seq<bv8>>, parse: string -> ParseOutcome, p: Payload)
    : (Result<Completion>, seq<Request>)
  {
    var ask := AskOutcome(cfg, respond, n, fetch, parse, p);
    var asked, rq := ask.0, ask.1;
    (if asked.Err? then Err(asked.message) else FinishOutcome(p, Normalize(asked.value.0), asked.value.1), rq)
  }

  /** The `try` block: everything up to the COMPLETED write, or the message of what it threw. */
  method Attempt(cfg: Config, client: ModelClient, fetch: (string, Value) -> Result<seq<bv8>>,
                 parse: string -> ParseOutcome, p: Payload) returns (r: Result<Completion>)
    modifies client
    ensures var o := AttemptOutcome(cfg, client.respond, |old(client.sent)|, fetch, parse, p);
      r == o.0 && client.sent == old(client.sent) + o.1
  {
    var asked := Ask(cfg, client, fetch, parse, p);
    if asked.Err? {
      return Err(asked.message);
    }
    var (value, modelUsed) := asked.value;
    var n := Normalize(value);
    r := Finish(p, n, modelUsed);
  }

  /**
   * A completed attempt has sent a request, names the model of the last one,
   * and carries a scored record with its score in [0, 1].
   */
  lemma AttemptScored(cfg: Config, respond: (nat, Request) -> SendOutcome, n: nat,
                      fetch: (string, Value) -> Result<seq<bv8>>, parse: string -> ParseOutcome, p: Payload)
    ensures var attempt := AttemptOutcome(cfg, respond, n, fetch, parse, p);
      var a, rq := attempt.0, attempt.1;
      a.Ok? ==> |rq| > 0 && a.value.modelUsed == LastModel(rq) && Scored(a.value, p) && 0.0 <= a.value.confidence <= 1.0
  {
    var ask := AskOutcome(cfg, respond, n, fetch, parse, p);
    var asked, rq := ask.0, ask.1;
    AskRequests(cfg, respond, n, fetch, parse, p);
    if asked.Ok? {
      FinishScored(p, Normalize(asked.value.0), asked.value.1);
    }
  }

  // ---------------------------------------------------------------------------
  // Step 8 and the `catch` block: the terminal writes
  // ---------------------------------------------------------------------------

  /** The update written for the outcome of the `try` block. */
  function UpdateFor(r: Result<Completion>, now: string): (u: Update)
    ensures u.updatedAt == now
    ensures r.Err? ==> u == FailedUpdate(now, [r.message])
    ensures r.Ok? ==> u.CompletedUpdate? && u.confidence == r.value.confidence
                      && u.extractedJson == r.value.extracted && u.modelUsed == r.value.modelUsed
  {
    match r
    case Err(m) => FailedUpdate(now, [m])
    case Ok(c) =>
      var x := c.extracted;
      CompletedUpdate(now, x, c.confidence, Coalesce(x.vendor.name, Null),
                      Coalesce(x.invoice.invoiceNumber, Null), Coalesce(x.invoice.currency, Null),
                      x.invoice.totalAmount, c.modelUsed)
  }

  /** A terminal write for payload `p`: FAILED with one message, or COMPLETED
      with a score that is the record's own `confidenceScore`, lies in [0, 1] and is recomputable. */
  predicate Terminal(w: Write, p: Payload) {
    w.messageId == p.messageId && w.attachmentKey == p.attachmentKey
    && match w.update
       case FailedUpdate(_, errors) => |errors| == 1
       case CompletedUpdate(_, x, confidence, _, _, _, _, modelUsed) =>
         x.meta.Some? && confidence == x.meta.value.confidenceScore
         && confidence == Confidence(x) && 0.0 <= confidence <= 1.0
         && modelUsed == x.meta.value.extractionModel
  }

  /**
   * The `updateItem` calls for one record, the first being the table's `m`-th,
   * and what escapes the loop: the write for the outcome; when a COMPLETED
   * write is rejected the `catch` block writes FAILED with the rejection's
   * message; a rejected FAILED write escapes.
   */
  function RecordWrites(a: Result<Completion>, reject: (nat, Write) -> Option<string>, m: nat, p: Payload,
                        clock: nat -> string)
    : (seq<Write>, Option<string>)
  {
    var first := Write(p.messageId, p.attachmentKey, UpdateFor(a, clock(m)));
    var e := reject(m, first);
    if e.None? then ([first], None)
    else if a.Err? then ([first], e)
    else
      var second := Write(p.messageId, p.attachmentKey, FailedUpdate(clock(m + 1), [e.value]));
      ([first, second], reject(m + 1, second))
  }

  /** The table's answer to its `i`-th write. */
  function Rejection(reject: (nat, Write) -> Option<string>, i: nat, w: Write): Option<string> {
    reject(i, w)
  }

  /**
   * One or two writes: the outcome's, then a FAILED one exactly when a
   * COMPLETED write was rejected, carrying the rejection's message; what
   * escapes is the rejection of the last write, if any.
   */
  lemma RecordWritesShape(a: Result<Completion>, reject: (nat, Write) -> Option<string>, m: nat, p: Payload,
                          clock: nat -> string)
    ensures var written := RecordWrites(a, reject, m, p, clock);
      var ws, escaped := written.0, written.1;
      && 1 <= |ws| <= 2
      && ws[0] == Write(p.messageId, p.attachmentKey, UpdateFor(a, clock(m)))
      && (|ws| == 2 <==> a.Ok? && Rejection(reject, m, ws[0]).Some?)
      && (|ws| == 2 ==> ws[1] == Write(p.messageId, p.attachmentKey, FailedUpdate(clock(m + 1), [Rejection(reject, m, ws[0]).value])))
      && escaped == Rejection(reject, m + |ws| - 1, ws[|ws| - 1])
  {
  }

  /** Every write for a record is terminal for its payload and stamped with the clock at its position. */
  lemma RecordWritesTerminal(a: Result<Completion>, reject: (nat, Write) -> Option<string>, m: nat, p: Payload,
                             clock: nat -> string)
    requires a.Ok? ==> Scored(a.value, p) && 0.0 <= a.value.confidence <= 1.0
    ensures var ws := RecordWrites(a, reject, m, p, clock).0;
      forall j :: 0 <= j < |ws| ==> TerminalAt(ws, j, p, clock, m)
  {
    var ws := RecordWrites(a, reject, m, p, clock).0;
    RecordWritesShape(a, reject, m, p, clock);
    UpdateForTerminal(a, clock(m), p);
    forall j | 0 <= j < |ws|
      ensures TerminalAt(ws, j, p, clock, m)
    {
      if j == 1 {
        FailedTerminal(ws[1], p);
      }
    }
  }

  /** The `x`-th of `ws` is terminal for `p` and stamped with the clock at position `m + x`. */
  predicate TerminalAt(ws: seq<Write>, x: nat, p: Payload, clock: nat -> string, m: nat)
    requires x < |ws|
  {
    Terminal(ws[x], p) && ws[x].update.updatedAt == clock(m + x)
  }

  lemma FailedTerminal(w: Write, p: Payload)
    requires w.messageId == p.messageId && w.attachmentKey == p.attachmentKey
    requires w.update.FailedUpdate? && |w.update.errors| == 1
    ensures Terminal(w, p)
  {
  }

  /** The write for the `try` block's outcome is terminal for its payload. */
  lemma UpdateForTerminal(a: Result<Completion>, now: string, p: Payload)
    requires a.Ok? ==> Scored(a.value, p) && 0.0 <= a.value.confidence <= 1.0
    ensures Terminal(Write(p.messageId, p.attachmentKey, UpdateFor(a, now)), p)
  {
  }

  /** One queue record: the `try` block, then its terminal writes. */
  method ProcessRecord(cfg: Config, client: ModelClient, table: InvoiceTable,
                       fetch: (string, Value) -> Result<seq<bv8>>, parse: string -> ParseOutcome,
                       p: Payload, clock: nat -> string) returns (escaped: Option<string>)
    modifies client, table
    ensures var attempt := AttemptOutcome(cfg, client.respond, |old(client.sent)|, fetch, parse, p);
      var a, rq := attempt.0, attempt.1;
      var written := RecordWrites(a, table.reject, |old(table.writes)|, p, clock);
      var ws, e := written.0, written.1;
      client.sent == old(client.sent) + rq && table.writes == old(table.writes) + ws && escaped == e
  {
    var r := Attempt(cfg, client, fetch, parse, p);
    escaped := WriteTerminal(table, r, p, clock);
  }

  /** The COMPLETED or FAILED write, and the `catch` block's FAILED write when the first is rejected. */
  method WriteTerminal(table: InvoiceTable, r: Result<Completion>, p: Payload, clock: nat -> string)
    returns (escaped: Option<string>)
    modifies table
    ensures var written := RecordWrites(r, table.reject, |old(table.writes)|, p, clock);
      var ws, e := written.0, written.1;
      table.writes == old(table.writes) + ws && escaped == e
  {
    var m := |table.writes|;
    var err := table.UpdateItem(Write(p.messageId, p.attachmentKey, UpdateFor(r, clock(m))));
    if err.None? {
      return None;
    }
    if r.Err? {
      return err;
    }
    escaped := table.UpdateItem(Write(p.messageId, p.attachmentKey, FailedUpdate(clock(m + 1), [err.value])));
  }

  // ---------------------------------------------------------------------------
  // The handler
  // ---------------------------------------------------------------------------

  const DestructureError := "Cannot destructure property 'messageId' of 'payload' as it is null."

  /** The destructured payload of a parsed record body; destructuring `null` or `undefined` throws. */
  function PayloadOf(v: Value): Result<Payload> {
    if IsNullish(v) then Err(DestructureError)
    else Ok(Payload(Get(v, "messageId"), Get(v, "attachmentId"), Get(v, "attachmentKey"),
                    Get(v, "receivedAt"), Get(v, "from"), Get(v, "subject")))
  }

  /** `JSON.parse(record.body)` followed by the destructuring: a syntax error or a nullish payload
      is thrown out of the handler. */
  function BodyPayload(o: ParseOutcome): (r: Result<Payload>)
    ensures r.Err? <==> o.SyntaxError? || IsNullish(o.value)
  {
    match o
    case SyntaxError(m) => Err(m)
    case Parsed(v) => PayloadOf(v)
  }

  /** What a record's body throws, if anything. */
  function Thrown(r: Result<Payload>): Option<string> {
    if r.Err? then Some(r.message) else None
  }

  /** The services and the clock the handler runs against. */
  datatype Env = Env(
    cfg: Config,
    respond: (nat, Request) -> SendOutcome,
    reject: (nat, Write) -> Option<string>,
    fetch: (string, Value) -> Result<seq<bv8>>,
    parse: string -> ParseOutcome,
    clock: nat -> string)

  /** What is thrown, what is sent and what is written so far. */
  type Trace = (Option<string>, seq<Request>, seq<Write>)

  /** One record whose requests start at the service's `n`-th and whose writes start at the table's `m`-th. */
  function RecordRun(env: Env, body: string, n: nat, m: nat): Trace {
    var payload := BodyPayload(env.parse(body));
    if payload.Err? then (Some(payload.message), [], [])
    else
      var attempt := AttemptOutcome(env.cfg, env.respond, n, env.fetch, env.parse, payload.value);
      var a, rq := attempt.0, attempt.1;
      var written := RecordWrites(a, env.reject, m, payload.value, env.clock);
      var ws, escaped := written.0, written.1;
      (escaped, rq, ws)
  }

  /** What handling one record does, as a function of its body and of the counts before it. */
  type Runner = (string, nat, nat) -> Trace

  /** The handler's own runner. */
  function RunnerOf(env: Env): Runner {
    (body: string, n: nat, m: nat) => RecordRun(env, body, n, m)
  }

  /** `rr` on one record. */
  function StepOf(rr: Runner, body: string, n: nat, m: nat): Trace {
    rr(body, n, m)
  }

  /** `rr` handles every record as `RecordRun` does against `env`. */
  ghost predicate RunsRecords(rr: Runner, env: Env) {
    forall body, n, m {:trigger RecordRun(env, body, n, m)} :: StepOf(rr, body, n, m) == RecordRun(env, body, n, m)
  }

  /** The handler's runner is `RecordRun`. */
  lemma RunnerOfSteps(env: Env)
    ensures RunsRecords(RunnerOf(env), env)
  {
  }

  /** The loop over `records`, in order, until something is thrown. */
  function Run(rr: Runner, records: seq<string>, n: nat, m: nat): Trace {
    if records == [] then (None, [], [])
    else
      var prev := Run(rr, records[..|records| - 1], n, m);
      if prev.0.Some? then prev
      else
        var step := StepOf(rr, records[|records| - 1], n + |prev.1|, m + |prev.2|);
        (step.0, prev.1 + step.1, prev.2 + step.2)
  }

  /** Run on one more record. */
  lemma RunSnoc(rr: Runner, records: seq<string>, i: nat, n: nat, m: nat)
    requires i < |records|
    ensures var prev := Run(rr, records[..i], n, m);
      var step := StepOf(rr, records[i], n + |prev.1|, m + |prev.2|);
      Run(rr, records[..i + 1], n, m) == if prev.0.Some? then prev else (step.0, prev.1 + step.1, prev.2 + step.2)
  {
    assert records[..i + 1][..i] == records[..i];
  }

  /**
   * `handler`: the records in order. A body that does not parse to a payload,
   * or a write that is rejected outside the `try` block, throws out of the
   * handler and leaves the later records unprocessed.
   */
  method Handler(cfg: Config, client: ModelClient, table: InvoiceTable,
                 fetch: (string, Value) -> Result<seq<bv8>>, parse: string -> ParseOutcome,
                 clock: nat -> string, records: seq<string>) returns (thrown: Option<string>)
    modifies client, table
    ensures var trace := Run(RunnerOf(Env(cfg, client.respond, table.reject, fetch, parse, clock)), records,
                                   |old(client.sent)|, |old(table.writes)|);
      var t, rq, ws := trace.0, trace.1, trace.2;
      thrown == t && client.sent == old(client.sent) + rq && table.writes == old(table.writes) + ws
  {
    ghost var env := Env(cfg, client.respond, table.reject, fetch, parse, clock);
    ghost var rr := RunnerOf(env);
    ghost var sent0, writes0 := client.sent, table.writes;
    ghost var n, m := |sent0|, |writes0|;
    ghost var trace: Trace := (None, [], []);
    RunnerOfSteps(env);
    assert records[..0] == [];
    for i := 0 to |records|
      invariant trace == Run(rr, records[..i], n, m) && trace.0.None?
      invariant client.sent == sent0 + trace.1 && table.writes == writes0 + trace.2
    {
      thrown := AdvanceRecord(cfg, client, table, fetch, parse, clock, records, i, env, rr, n, m, sent0, writes0, trace);
      trace := Run(rr, records[..i + 1], n, m);
      if thrown.Some? {
        ThrowEndsRun(rr, records, i + 1, n, m);
        return thrown;
      }
    }
    assert records[..|records|] == records;
    thrown := None;
  }

  /** The loop's step: handling record `i` extends the run over the first `i` records by one. */
  method AdvanceRecord(cfg: Config, client: ModelClient, table: InvoiceTable,
                       fetch: (string, Value) -> Result<seq<bv8>>, parse: string -> ParseOutcome,
                       clock: nat -> string, records: seq<string>, i: nat, ghost env: Env, ghost rr: Runner,
                       ghost n: nat, ghost m: nat, ghost sent0: seq<Request>, ghost writes0: seq<Write>,
                       ghost trace: Trace)
    returns (thrown: Option<string>)
    requires env == Env(cfg, client.respond, table.reject, fetch, parse, clock)
    requires RunsRecords(rr, env)
    requires i < |records| && n == |sent0| && m == |writes0|
    requires trace == Run(rr, records[..i], n, m) && trace.0.None?
    requires client.sent == sent0 + trace.1 && table.writes == writes0 + trace.2
    modifies client, table
    ensures var next := Run(rr, records[..i + 1], n, m);
      thrown == next.0 && client.sent == sent0 + next.1 && table.writes == writes0 + next.2
  {
    ghost var k, j := n + |trace.1|, m + |trace.2|;
    ghost var step := StepOf(rr, records[i], k, j);
    thrown := HandleRecord(cfg, client, table, fetch, parse, clock, records[i], env, rr, k, j);
    RunAdvances(rr, records, i, n, m, trace, step);
    Associates(sent0, trace.1, step.1);
    Associates(writes0, trace.2, step.2);
  }

  /** Extending an unfinished run by one record appends that record's trace. */
  lemma RunAdvances(rr: Runner, records: seq<string>, i: nat, n: nat, m: nat, trace: Trace, step: Trace)
    requires i < |records| && trace == Run(rr, records[..i], n, m) && trace.0.None?
    requires step == StepOf(rr, records[i], n + |trace.1|, m + |trace.2|)
    ensures Run(rr, records[..i + 1], n, m) == (step.0, trace.1 + step.1, trace.2 + step.2)
  {
    RunSnoc(rr, records, i, n, m);
  }

  /**
   * One iteration of the loop: parse and destructure the body, then process
   * the record; `k` and `j` are the numbers of requests and writes so far.
   * Its effect is the step of `rr`, which handles records as `RecordRun` does.
   */
  method HandleRecord(cfg: Config, client: ModelClient, table: InvoiceTable,
                      fetch: (string, Value) -> Result<seq<bv8>>, parse: string -> ParseOutcome,
                      clock: nat -> string, body: string, ghost env: Env, ghost rr: Runner, ghost k: nat, ghost j: nat)
    returns (thrown: Option<string>)
    requires env == Env(cfg, client.respond, table.reject, fetch, parse, clock) && RunsRecords(rr, env)
    requires k == |client.sent| && j == |table.writes|
    modifies client, table
    ensures var step := StepOf(rr, body, k, j);
      thrown == step.0 && client.sent == old(client.sent) + step.1 && table.writes == old(table.writes) + step.2
  {
    assert StepOf(rr, body, k, j) == RecordRun(env, body, k, j);
    var payload := BodyPayload(parse(body));
    if payload.Err? {
      return Thrown(payload);
    }
    thrown := ProcessRecord(cfg, client, table, fetch, parse, payload.value, clock);
  }

  lemma Associates<T>(a: seq<T>, b: seq<T>, c: seq<T>)
    ensures a + b + c == a + (b + c)
  {
  }

  /** Once something is thrown, the later records change nothing. */
  lemma {:induction false} ThrowEndsRun(rr: Runner, records: seq<string>, i: nat, n: nat, m: nat)
    requires i <= |records| && Run(rr, records[..i], n, m).0.Some?
    ensures Run(rr, records, n, m) == Run(rr, records[..i], n, m)
    decreases |records| - i
  {
    if i < |records| {
      RunSnoc(rr, records, i, n, m);
      ThrowEndsRun(rr, records, i + 1, n, m);
    } else {
      assert records[..i] == records;
    }
  }

  // ---------------------------------------------------------------------------
  // What a whole run does, for any runner whose records behave
  // ---------------------------------------------------------------------------

  /** `parsed` holds of `body`. */
  ghost predicate IsParsed(parsed: string -> bool, body: string) {
    parsed(body)
  }

  /** `w`, at table position `pos`, is a write of the parsed record `body` that satisfies `ok`. */
  ghost predicate WroteAt(parsed: string -> bool, ok: (string, nat, Write) -> bool, body: string, pos: nat, w: Write) {
    parsed(body) && ok(body, pos, w)
  }

  /**
   * Every record either throws before writing anything (its body does not
   * parse) or writes at least once, each write satisfying `ok` at its
   * position in the table.
   */
  ghost predicate Behaved(rr: Runner, parsed: string -> bool, ok: (string, nat, Write) -> bool) {
    forall body: string, k: nat, j: nat {:trigger StepOf(rr, body, k, j)} ::
      var t := StepOf(rr, body, k, j);
      && (!parsed(body) ==> t.0.Some? && t.2 == [])
      && (parsed(body) ==> |t.2| >= 1 && forall x :: 0 <= x < |t.2| ==> ok(body, j + x, t.2[x]))
  }

  /**
   * As `Behaved`, when no write is rejected: a record that does not parse
   * throws before sending anything, and a parsed record writes exactly once
   * and throws nothing.
   */
  ghost predicate Accepting(rr: Runner, parsed: string -> bool, ok: (string, nat, Write) -> bool) {
    forall body: string, k: nat, j: nat {:trigger StepOf(rr, body, k, j)} ::
      var t := StepOf(rr, body, k, j);
      && (!parsed(body) ==> t.0.Some? && t.1 == [] && t.2 == [])
      && (parsed(body) ==> t.0.None? && |t.2| == 1 && ok(body, j, t.2[0]))
  }

  /** A run that throws nothing saw only parsed records. */
  lemma {:induction false} RunNoneParsed(rr: Runner, parsed: string -> bool, ok: (string, nat, Write) -> bool,
                                         records: seq<string>, n: nat, m: nat)
    requires Behaved(rr, parsed, ok) && Run(rr, records, n, m).0.None?
    ensures forall i :: 0 <= i < |records| ==> IsParsed(parsed, records[i])
    decreases |records|
  {
    if records != [] {
      var init, last := records[..|records| - 1], records[|records| - 1];
      var prev := Run(rr, init, n, m);
      RunNoneParsed(rr, parsed, ok, init, n, m);
      var k, j := n + |prev.1|, m + |prev.2|;
      var step := StepOf(rr, last, k, j);
      assert step.0.None?;
      forall i | 0 <= i < |records|
        ensures IsParsed(parsed, records[i])
      {
        if i < |init| {
          assert records[i] == init[i];
        }
      }
    }
  }

  /** A run that throws stopped at some record `i`: the run before it threw nothing, and the run up to it is the whole run. */
  lemma {:induction false} RunThrowAt(rr: Runner, records: seq<string>, n: nat, m: nat)
    requires Run(rr, records, n, m).0.Some?
    ensures exists i :: 0 <= i < |records| && Run(rr, records[..i], n, m).0.None?
                        && Run(rr, records[..i + 1], n, m) == Run(rr, records, n, m)
    decreases |records|
  {
    var init := records[..|records| - 1];
    if Run(rr, init, n, m).0.Some? {
      RunThrowAt(rr, init, n, m);
      var i :| 0 <= i < |init| && Run(rr, init[..i], n, m).0.None? && Run(rr, init[..i + 1], n, m) == Run(rr, init, n, m);
      assert init[..i] == records[..i] && init[..i + 1] == records[..i + 1];
    } else {
      assert records[..|records|] == records;
    }
  }

  /** Every write of a run satisfies `ok` for some parsed record, at its position in the table. */
  lemma {:induction false} RunWritesOk(rr: Runner, parsed: string -> bool, ok: (string, nat, Write) -> bool,
                                       records: seq<string>, n: nat, m: nat)
    requires Behaved(rr, parsed, ok)
    ensures forall w :: 0 <= w < |Run(rr, records, n, m).2| ==>
      exists i :: 0 <= i < |records| && WroteAt(parsed, ok, records[i], m + w, Run(rr, records, n, m).2[w])
    decreases |records|
  {
    if records != [] {
      var init, last := records[..|records| - 1], records[|records| - 1];
      var prev := Run(rr, init, n, m);
      RunWritesOk(rr, parsed, ok, init, n, m);
      var ws := Run(rr, records, n, m).2;
      var k, j := n + |prev.1|, m + |prev.2|;
      var step := StepOf(rr, last, k, j);
      forall w | 0 <= w < |ws|
        ensures exists i :: 0 <= i < |records| && WroteAt(parsed, ok, records[i], m + w, ws[w])
      {
        if w < |prev.2| {
          assert ws[w] == prev.2[w];
          var i :| 0 <= i < |init| && WroteAt(parsed, ok, init[i], m + w, prev.2[w]);
          assert records[i] == init[i];
        } else {
          assert prev.0.None?;
          var x := w - |prev.2|;
          assert ws[w] == step.2[x] && m + w == j + x;
          assert WroteAt(parsed, ok, records[|records| - 1], m + w, ws[w]);
        }
      }
    } else {
      assert Run(rr, records, n, m).2 == [];
    }
  }

  /**
   * With no write rejected, record `w` makes the `w`-th write, and the run
   * throws exactly when some body does not parse: at the first such body,
   * whose position is the number of writes.
   */
  lemma {:induction false} RunAccepted(rr: Runner, parsed: string -> bool, ok: (string, nat, Write) -> bool,
                                       records: seq<string>, n: nat, m: nat)
    requires Accepting(rr, parsed, ok)
    ensures var t := Run(rr, records, n, m);
      && |t.2| <= |records|
      && (forall w :: 0 <= w < |t.2| ==> WroteAt(parsed, ok, records[w], m + w, t.2[w]))
      && (t.0.None? ==> |t.2| == |records|)
      && (t.0.Some? ==> |t.2| < |records| && !IsParsed(parsed, records[|t.2|])
                        && t.0 == StepOf(rr, records[|t.2|], n + |t.1|, m + |t.2|).0)
    decreases |records|
  {
    if records != [] {
      var init, last := records[..|records| - 1], records[|records| - 1];
      var prev := Run(rr, init, n, m);
      RunAccepted(rr, parsed, ok, init, n, m);
      if prev.0.Some? {
        assert records[|prev.2|] == init[|prev.2|];
        forall w | 0 <= w < |prev.2|
          ensures records[w] == init[w]
        {
        }
      } else {
        var k, j := n + |prev.1|, m + |prev.2|;
        var step := StepOf(rr, last, k, j);
        var t := Run(rr, records, n, m);
        assert t == (step.0, prev.1 + step.1, prev.2 + step.2);
        forall w | 0 <= w < |t.2|
          ensures WroteAt(parsed, ok, records[w], m + w, t.2[w])
        {
          if w < |prev.2| {
            assert records[w] == init[w] && t.2[w] == prev.2[w];
          } else {
            assert w == |init| && t.2[w] == step.2[0];
          }
        }
        if t.0.Some? {
          assert step.1 == [] && step.2 == [];
          assert t.1 == prev.1 && t.2 == prev.2 && |t.2| == |init|;
        }
      }
    }
  }

  // ---------------------------------------------------------------------------
  // What the handler's own run does
  // ---------------------------------------------------------------------------

  /** The record's body parses and destructures to a payload. */
  predicate Parses(env: Env, body: string) {
    BodyPayload(env.parse(body)).Ok?
  }

  /** `w`, the table's `pos`-th write, is terminal for the payload of `body` and stamped with the clock at `pos`. */
  predicate StampedFor(env: Env, body: string, pos: nat, w: Write) {
    Parses(env, body) && Terminal(w, BodyPayload(env.parse(body)).value) && w.update.updatedAt == env.clock(pos)
  }

  function ParsesBy(env: Env): string -> bool {
    body => Parses(env, body)
  }

  function StampedBy(env: Env): (string, nat, Write) -> bool {
    (body: string, pos: nat, w: Write) => StampedFor(env, body, pos, w)
  }

  /**
   * One record: a body that does not parse throws its error having sent and
   * written nothing; a parsed body is written once or twice, each write
   * terminal for its payload and stamped at its position, and what escapes
   * is the rejection of the last write.
   */
  lemma RecordRunFacts(env: Env, body: string, k: nat, j: nat)
    ensures var t := RecordRun(env, body, k, j);
      && (!Parses(env, body) ==> t == (Thrown(BodyPayload(env.parse(body))), [], []))
      && (Parses(env, body) ==> StampedRun(env, body, j, t))
  {
    var payload := BodyPayload(env.parse(body));
    if payload.Ok? {
      var p := payload.value;
      var attempt := AttemptOutcome(env.cfg, env.respond, k, env.fetch, env.parse, p);
      AttemptScored(env.cfg, env.respond, k, env.fetch, env.parse, p);
      var a, rq := attempt.0, attempt.1;
      var written := RecordWrites(a, env.reject, j, p, env.clock);
      TraceStamped(env, body, p, a, rq, j, written);
      assert RecordRun(env, body, k, j) == (written.1, rq, written.0);
    }
  }

  /**
   * The trace of a parsed record whose first write is the table's `j`-th:
   * one or two writes, each stamped and terminal for its payload, and what
   * escapes is the table's answer to the last of them.
   */
  predicate StampedRun(env: Env, body: string, j: nat, t: Trace) {
    && 1 <= |t.2| <= 2
    && StampedWrites(env, body, j, t.2)
    && (|t.2| == 2 ==> Rejection(env.reject, j, t.2[0]).Some?)
    && t.0 == Rejection(env.reject, j + |t.2| - 1, t.2[|t.2| - 1])
  }

  /** Each of `ws` is stamped for `body`, the first at the table's `j`-th position. */
  predicate StampedWrites(env: Env, body: string, j: nat, ws: seq<Write>) {
    forall x :: 0 <= x < |ws| ==> StampedAt(env, body, j, ws, x)
  }

  /** The `x`-th of `ws` is stamped for `body` at position `j + x`. */
  predicate StampedAt(env: Env, body: string, j: nat, ws: seq<Write>, x: nat)
    requires x < |ws|
  {
    StampedFor(env, body, j + x, ws[x])
  }

  /** What escapes a parsed record is the table's answer to its last write. */
  lemma StampedLast(env: Env, body: string, j: nat, t: Trace)
    requires StampedRun(env, body, j, t)
    ensures |t.2| >= 1 && t.0 == Rejection(env.reject, j + |t.2| - 1, t.2[|t.2| - 1])
  {
  }

  /** With no write rejected, a parsed record's trace is one accepted write. */
  lemma AcceptedRun(env: Env, body: string, j: nat, t: Trace)
    requires forall i: nat, w: Write :: Rejection(env.reject, i, w).None?
    requires StampedRun(env, body, j, t)
    ensures t.0.None? && |t.2| == 1 && StampedFor(env, body, j, t.2[0])
  {
    assert Rejection(env.reject, j, t.2[0]).None?;
    assert StampedAt(env, body, j, t.2, 0);
  }

  /** The trace of a parsed record, given its attempt and its writes. */
  lemma TraceStamped(env: Env, body: string, p: Payload, a: Result<Completion>, rq: seq<Request>, j: nat,
                     written: (seq<Write>, Option<string>))
    requires BodyPayload(env.parse(body)) == Ok(p)
    requires a.Ok? ==> Scored(a.value, p) && 0.0 <= a.value.confidence <= 1.0
    requires written == RecordWrites(a, env.reject, j, p, env.clock)
    ensures StampedRun(env, body, j, (written.1, rq, written.0))
  {
    var ws, e := written.0, written.1;
    WrittenStamped(a, env.reject, j, p, env.clock, written);
    StampedAll(env, body, p, j, ws);
    StampedRunOf(env, body, j, e, rq, ws);
  }

  /** The conditions of `StampedRun`, one by one. */
  lemma StampedRunOf(env: Env, body: string, j: nat, e: Option<string>, rq: seq<Request>, ws: seq<Write>)
    requires 1 <= |ws| <= 2 && e == Rejection(env.reject, j + |ws| - 1, ws[|ws| - 1])
    requires |ws| == 2 ==> Rejection(env.reject, j, ws[0]).Some?
    requires StampedWrites(env, body, j, ws)
    ensures StampedRun(env, body, j, (e, rq, ws))
  {
    var t: Trace := (e, rq, ws);
    assert t.2 == ws && t.0 == e;
  }

  /** Writes that are terminal for the payload of `body`, stamped from position `j` on. */
  lemma StampedAll(env: Env, body: string, p: Payload, j: nat, ws: seq<Write>)
    requires BodyPayload(env.parse(body)) == Ok(p)
    requires forall x :: 0 <= x < |ws| ==> TerminalAt(ws, x, p, env.clock, j)
    ensures StampedWrites(env, body, j, ws)
  {
    forall x | 0 <= x < |ws|
      ensures StampedFor(env, body, j + x, ws[x])
    {
      assert TerminalAt(ws, x, p, env.clock, j);
    }
  }

  /** The writes for one record, one or two, are terminal and stamped; what escapes rejects the last. */
  lemma WrittenStamped(a: Result<Completion>, reject: (nat, Write) -> Option<string>, m: nat, p: Payload,
                       clock: nat -> string, written: (seq<Write>, Option<string>))
    requires a.Ok? ==> Scored(a.value, p) && 0.0 <= a.value.confidence <= 1.0
    requires written == RecordWrites(a, reject, m, p, clock)
    ensures 1 <= |written.0| <= 2 && written.1 == Rejection(reject, m + |written.0| - 1, written.0[|written.0| - 1])
    ensures |written.0| == 2 ==> Rejection(reject, m, written.0[0]).Some?
    ensures forall x :: 0 <= x < |written.0| ==> TerminalAt(written.0, x, p, clock, m)
  {
    RecordWritesShape(a, reject, m, p, clock);
    RecordWritesTerminal(a, reject, m, p, clock);
  }

  /** The handler's runner behaves: parse failures throw before writing, parsed records are stamped terminal writes. */
  lemma RunnerBehaved(env: Env)
    ensures Behaved(RunnerOf(env), ParsesBy(env), StampedBy(env))
  {
    RunnerOfSteps(env);
    forall body: string, k: nat, j: nat
      ensures var t := StepOf(RunnerOf(env), body, k, j);
        && (!Parses(env, body) ==> t.0.Some? && t.2 == [])
        && (Parses(env, body) ==> |t.2| >= 1 && forall x :: 0 <= x < |t.2| ==> StampedBy(env)(body, j + x, t.2[x]))
    {
      RecordRunFacts(env, body, k, j);
      var t := RecordRun(env, body, k, j);
      if Parses(env, body) {
        StampedWritesBy(env, body, j, t.2);
      }
    }
  }

  /** Stamped writes satisfy `StampedBy`. */
  lemma StampedWritesBy(env: Env, body: string, j: nat, ws: seq<Write>)
    requires StampedWrites(env, body, j, ws)
    ensures forall x :: 0 <= x < |ws| ==> StampedBy(env)(body, j + x, ws[x])
  {
    forall x | 0 <= x < |ws|
      ensures StampedBy(env)(body, j + x, ws[x])
    {
      assert StampedAt(env, body, j, ws, x);
    }
  }

  /** With no write rejected, the handler's runner accepts every parsed record with one write. */
  lemma RunnerAccepting(env: Env)
    requires forall i: nat, w: Write :: Rejection(env.reject, i, w).None?
    ensures Accepting(RunnerOf(env), ParsesBy(env), StampedBy(env))
  {
    RunnerOfSteps(env);
    forall body: string, k: nat, j: nat
      ensures var t := StepOf(RunnerOf(env), body, k, j);
        && (!Parses(env, body) ==> t.0.Some? && t.1 == [] && t.2 == [])
        && (Parses(env, body) ==> t.0.None? && |t.2| == 1 && StampedFor(env, body, j, t.2[0]))
    {
      RecordRunFacts(env, body, k, j);
      var t := RecordRun(env, body, k, j);
      if Parses(env, body) {
        AcceptedRun(env, body, j, t);
      }
    }
  }

  /** Every write of the handler is terminal for the payload of some parsed record and stamped at its position. */
  lemma HandlerWrites(env: Env, records: seq<string>, n: nat, m: nat)
    ensures var ws := Run(RunnerOf(env), records, n, m).2;
      forall w :: 0 <= w < |ws| ==> exists i :: 0 <= i < |records| && StampedFor(env, records[i], m + w, ws[w])
  {
    var rr, parsed, ok := RunnerOf(env), ParsesBy(env), StampedBy(env);
    RunnerBehaved(env);
    RunWritesOk(rr, parsed, ok, records, n, m);
    var ws := Run(rr, records, n, m).2;
    forall w | 0 <= w < |ws|
      ensures exists i :: 0 <= i < |records| && StampedFor(env, records[i], m + w, ws[w])
    {
      var i :| 0 <= i < |records| && WroteAt(parsed, ok, records[i], m + w, ws[w]);
      assert StampedFor(env, records[i], m + w, ws[w]);
    }
  }

  /**
   * How the handler stops at record `i` of a throwing run: every earlier
   * body parsed, and either body `i` does not parse and its error is thrown,
   * or it parsed and the rejection of the run's last write is thrown.
   */
  predicate StopsAt(env: Env, records: seq<string>, t: Trace, m: nat, i: nat)
    requires i < |records|
  {
    && (forall h :: 0 <= h < i ==> Parses(env, records[h]))
    && (!Parses(env, records[i]) ==> t.0 == Thrown(BodyPayload(env.parse(records[i]))))
    && (Parses(env, records[i]) ==> |t.2| >= 1 && t.0 == Rejection(env.reject, m + |t.2| - 1, t.2[|t.2| - 1]))
  }

  /**
   * A run that throws nothing parsed every body; a run that throws stopped
   * at some record as `StopsAt` says.
   */
  lemma HandlerStops(env: Env, records: seq<string>, n: nat, m: nat)
    ensures var t := Run(RunnerOf(env), records, n, m);
      && (t.0.None? ==> forall i :: 0 <= i < |records| ==> Parses(env, records[i]))
      && (t.0.Some? ==> exists i :: 0 <= i < |records| && StopsAt(env, records, t, m, i))
  {
    var rr, parsed, ok := RunnerOf(env), ParsesBy(env), StampedBy(env);
    var t := Run(rr, records, n, m);
    RunnerBehaved(env);
    if t.0.None? {
      RunNoneParsed(rr, parsed, ok, records, n, m);
      forall i | 0 <= i < |records|
        ensures Parses(env, records[i])
      {
        assert IsParsed(parsed, records[i]);
      }
    } else {
      RunThrowAt(rr, records, n, m);
      var i :| 0 <= i < |records| && Run(rr, records[..i], n, m).0.None? && Run(rr, records[..i + 1], n, m) == t;
      EarlierParsed(env, rr, parsed, ok, records, n, m, i);
      RunnerOfSteps(env);
      StopsAtThrow(env, rr, records, n, m, t, i);
    }
  }

  /** The bodies before a record at which the run still threw nothing all parsed. */
  lemma EarlierParsed(env: Env, rr: Runner, parsed: string -> bool, ok: (string, nat, Write) -> bool,
                      records: seq<string>, n: nat, m: nat, i: nat)
    requires parsed == ParsesBy(env) && Behaved(rr, parsed, ok)
    requires i <= |records| && Run(rr, records[..i], n, m).0.None?
    ensures forall h :: 0 <= h < i ==> Parses(env, records[h])
  {
    var init := records[..i];
    RunNoneParsed(rr, parsed, ok, init, n, m);
    forall h | 0 <= h < i
      ensures Parses(env, records[h])
    {
      assert IsParsed(parsed, init[h]) && init[h] == records[h];
    }
  }

  /** The record at which a throwing run stops is as `StopsAt` says. */
  lemma StopsAtThrow(env: Env, rr: Runner, records: seq<string>, n: nat, m: nat, t: Trace, i: nat)
    requires RunsRecords(rr, env)
    requires i < |records| && Run(rr, records[..i], n, m).0.None? && Run(rr, records[..i + 1], n, m) == t
    requires forall h :: 0 <= h < i ==> Parses(env, records[h])
    ensures StopsAt(env, records, t, m, i)
  {
    var before := Run(rr, records[..i], n, m);
    var k: nat, j: nat := n + |before.1|, m + |before.2|;
    var body := records[i];
    var step := StepOf(rr, body, k, j);
    RunAdvances(rr, records, i, n, m, before, step);
    assert step == RecordRun(env, body, k, j);
    RecordRunFacts(env, body, k, j);
    assert t == (step.0, before.1 + step.1, before.2 + step.2);
    if Parses(env, body) {
      var earlier := before.2;
      StampedLast(env, body, j, step);
      LastRejected(env, m, j, earlier, step, t);
    }
  }

  /** A run whose last record writes after `earlier` throws the table's answer to the run's last write. */
  lemma LastRejected(env: Env, m: nat, j: nat, earlier: seq<Write>, step: Trace, t: Trace)
    requires |step.2| >= 1 && step.0 == Rejection(env.reject, j + |step.2| - 1, step.2[|step.2| - 1])
    requires j == m + |earlier|
    requires t.0 == step.0 && t.2 == earlier + step.2
    ensures |t.2| >= 1 && t.0 == Rejection(env.reject, m + |t.2| - 1, t.2[|t.2| - 1])
  {
    var ws, own := t.2, step.2;
    assert ws == earlier + own && |ws| == |earlier| + |own|;
    assert ws[|ws| - 1] == own[|own| - 1];
    assert m + |ws| - 1 == j + |own| - 1;
  }

  /**
   * With no write rejected, record `w` makes the table's `w`-th write, and
   * the handler throws exactly when some body does not parse: the first
   * one, whose position is the number of writes, and its error is thrown.
   */
  lemma HandlerAccepted(env: Env, records: seq<string>, n: nat, m: nat)
    requires forall i: nat, w: Write :: Rejection(env.reject, i, w).None?
    ensures var t := Run(RunnerOf(env), records, n, m);
      && |t.2| <= |records|
      && (forall w :: 0 <= w < |t.2| ==> StampedFor(env, records[w], m + w, t.2[w]))
      && (t.0.None? <==> forall i :: 0 <= i < |records| ==> Parses(env, records[i]))
      && (t.0.Some? ==> !Parses(env, records[|t.2|]) && t.0 == Thrown(BodyPayload(env.parse(records[|t.2|]))))
  {
    var rr, parsed, ok := RunnerOf(env), ParsesBy(env), StampedBy(env);
    var t := Run(rr, records, n, m);
    RunnerAccepting(env);
    RunAccepted(rr, parsed, ok, records, n, m);
    forall w | 0 <= w < |t.2|
      ensures StampedFor(env, records[w], m + w, t.2[w]) && Parses(env, records[w])
    {
      assert WroteAt(parsed, ok, records[w], m + w, t.2[w]);
    }
    if t.0.Some? {
      var body := records[|t.2|];
      assert !IsParsed(parsed, body);
      RunnerOfSteps(env);
      var k, j := n + |t.1|, m + |t.2|;
      RecordRunFacts(env, body, k, j);
      assert t.0 == StepOf(rr, body, k, j).0;
    }
  }
}
