/**
 * The model invocation rules of backend/src/shared/bedrock.ts: which request
 * body each model family gets, how the reply text is read out of the response
 * body, and the one-shot failover to a secondary model. The service call is
 * an oracle owned by a client object that logs every request it is sent.
 */
module Bedrock {
  import opened Wrappers
  import opened Strings
  import opened Json

  // ----- Documents -----

  datatype MediaType = Pdf | Png | Jpeg

  function MediaTypeName(m: MediaType): string {
    match m
    case Pdf => "application/pdf"
    case Png => "image/png"
    case Jpeg => "image/jpeg"
  }

  /** An attachment as it is handed to the model; `data` travels base64-encoded. */
  datatype Document = Document(mediaType: MediaType, data: seq<bv8>)

  // ----- Model families -----

  predicate IsNovaModel(modelId: string) { Contains(modelId, "nova") }

  predicate IsTitanTextModel(modelId: string) { StartsWith(modelId, "amazon.titan-text") }

  predicate IsAnthropicModel(modelId: string) {
    Contains(modelId, "anthropic") || Contains(modelId, "claude")
  }

  datatype Family = Anthropic | Nova | TitanText | Default

  /** The family `buildRequestBody` dispatches on, testing Anthropic, then Nova, then Titan. */
  function FamilyOf(modelId: string): Family {
    if IsAnthropicModel(modelId) then Anthropic
    else if IsNovaModel(modelId) then Nova
    else if IsTitanTextModel(modelId) then TitanText
    else Default
  }

  /** Each family is chosen exactly when its own test holds and no earlier one does. */
  lemma FamilyPrecedence(modelId: string)
    ensures FamilyOf(modelId) == Anthropic <==> IsAnthropicModel(modelId)
    ensures FamilyOf(modelId) == Nova <==> !IsAnthropicModel(modelId) && IsNovaModel(modelId)
    ensures FamilyOf(modelId) == TitanText
      <==> !IsAnthropicModel(modelId) && !IsNovaModel(modelId) && IsTitanTextModel(modelId)
    ensures FamilyOf(modelId) == Default
      <==> !IsAnthropicModel(modelId) && !IsNovaModel(modelId) && !IsTitanTextModel(modelId)
  {
  }

  // ----- Request bodies -----

  const AnthropicVersion := "bedrock-2023-05-31"
  const AnthropicMaxTokens: nat := 4096
  const TextMaxTokens: nat := 2048

  /** An Anthropic content block: an attachment with a base64 source, or the prompt text. */
  datatype ContentBlock =
    | Attachment(blockType: string, sourceType: string, mediaType: string, data: seq<bv8>)
    | TextBlock(text: string)

  /** A Nova content part: the prompt text, or an image with its format and bytes. */
  datatype NovaPart = NovaText(text: string) | NovaImage(format: string, bytes: seq<bv8>)

  datatype Message<T> = Message(role: string, content: seq<T>)

  /** The request bodies; every variant carries the sampling `temperature`. */
  datatype Body =
    | AnthropicBody(anthropicVersion: string, maxTokens: nat, temperature: real,
                    messages: seq<Message<ContentBlock>>)
    | NovaBody(novaMessages: seq<Message<NovaPart>>, maxTokens: nat, temperature: real)
    | TextBody(inputText: string, maxTokenCount: nat, temperature: real, topP: real)

  /** The Anthropic block for one document: PDFs as `document`, everything else as `image`. */
  function BlockFor(d: Document): ContentBlock {
    if d.mediaType == Pdf then Attachment("document", "base64", MediaTypeName(Pdf), d.data)
    else Attachment("image", "base64", MediaTypeName(d.mediaType), d.data)
  }

  /** The Anthropic content: one block per document in order, then the prompt. */
  function AnthropicContent(prompt: string, docs: seq<Document>): seq<ContentBlock> {
    seq(|docs|, i requires 0 <= i < |docs| => BlockFor(docs[i])) + [TextBlock(prompt)]
  }

  function NovaImageFor(d: Document): NovaPart {
    NovaImage(if d.mediaType == Png then "png" else "jpeg", d.data)
  }

  /** The Nova images: the non-PDF documents in order, each mapped to an image part. */
  function NovaImages(docs: seq<Document>): seq<NovaPart> {
    if docs == [] then []
    else (if docs[0].mediaType == Pdf then [] else [NovaImageFor(docs[0])]) + NovaImages(docs[1..])
  }

  /** The body `buildRequestBody` builds for a model. */
  function RequestBody(modelId: string, prompt: string, docs: seq<Document>): Body {
    match FamilyOf(modelId)
    case Anthropic =>
      AnthropicBody(AnthropicVersion, AnthropicMaxTokens, 0.0, [Message("user", AnthropicContent(prompt, docs))])
    case Nova => NovaBody([Message("user", [NovaText(prompt)] + NovaImages(docs))], TextMaxTokens, 0.0)
    case TitanText => TextBody(prompt, TextMaxTokens, 0.0, 1.0)
    case Default => TextBody(prompt, TextMaxTokens, 0.0, 1.0)
  }

  /** `buildRequestBody`; the Anthropic content is pushed block by block. */
  method BuildRequestBody(modelId: string, prompt: string, docs: seq<Document>) returns (body: Body)
    ensures body == RequestBody(modelId, prompt, docs)
  {
    if IsAnthropicModel(modelId) {
      var content: seq<ContentBlock> := [];
      for i := 0 to |docs|
        invariant content == seq(i, j requires 0 <= j < i => BlockFor(docs[j]))
      {
        if docs[i].mediaType == Pdf {
          content := content + [Attachment("document", "base64", "application/pdf", docs[i].data)];
        } else {
          content := content + [Attachment("image", "base64", MediaTypeName(docs[i].mediaType), docs[i].data)];
        }
      }
      content := content + [TextBlock(prompt)];
      body := AnthropicBody(AnthropicVersion, AnthropicMaxTokens, 0.0, [Message("user", content)]);
    } else if IsNovaModel(modelId) {
      body := NovaBody([Message("user", [NovaText(prompt)] + NovaImages(docs))], TextMaxTokens, 0.0);
    } else if IsTitanTextModel(modelId) {
      body := TextBody(prompt, TextMaxTokens, 0.0, 1.0);
    } else {
      body := TextBody(prompt, TextMaxTokens, 0.0, 1.0);
    }
  }

  /** Every request is sent with temperature 0. */
  lemma ZeroTemperature(modelId: string, prompt: string, docs: seq<Document>)
    ensures RequestBody(modelId, prompt, docs).temperature == 0.0
  {
  }

  /** Titan text models and unknown models get the same text-only body. */
  lemma TitanIsDefault(titan: string, other: string, prompt: string, docs: seq<Document>)
    requires FamilyOf(titan) == TitanText && FamilyOf(other) == Default
    ensures RequestBody(titan, prompt, docs) == RequestBody(other, prompt, docs)
    ensures RequestBody(titan, prompt, docs).TextBody? && RequestBody(titan, prompt, docs).inputText == prompt
  {
  }

  /** The Anthropic content holds one block per document, in order, and then exactly one text block. */
  lemma AnthropicLayout(prompt: string, docs: seq<Document>)
    ensures var c := AnthropicContent(prompt, docs);
      |c| == |docs| + 1 && c[|docs|] == TextBlock(prompt)
      && forall i :: 0 <= i < |docs| ==>
        c[i].Attachment? && c[i].sourceType == "base64" && c[i].data == docs[i].data
        && c[i].mediaType == MediaTypeName(docs[i].mediaType)
        && (c[i].blockType == "document" <==> docs[i].mediaType == Pdf)
        && (c[i].blockType == "image" <==> docs[i].mediaType != Pdf)
  {
  }

  /** The Nova images of two runs of documents are the images of each, one after the other. */
  lemma {:induction false} NovaImagesAppend(a: seq<Document>, b: seq<Document>)
    ensures NovaImages(a + b) == NovaImages(a) + NovaImages(b)
  {
    if a != [] {
      assert (a + b)[1..] == a[1..] + b;
      NovaImagesAppend(a[1..], b);
    } else {
      assert a + b == b;
    }
  }

  /** A PDF is dropped from the Nova images, any other document kept as one image in place. */
  lemma NovaImagesAround(a: seq<Document>, d: Document, b: seq<Document>)
    ensures NovaImages(a + [d] + b)
      == NovaImages(a) + (if d.mediaType == Pdf then [] else [NovaImageFor(d)]) + NovaImages(b)
  {
    NovaImagesAppend(a + [d], b);
    NovaImagesAppend(a, [d]);
    assert [d][1..] == [];
  }

  /** Every Nova image comes from a non-PDF document, with format `png` exactly for PNGs. */
  lemma {:induction false} NovaImagesFromImages(docs: seq<Document>, k: nat)
    requires k < |NovaImages(docs)|
    ensures exists i :: 0 <= i < |docs| && docs[i].mediaType != Pdf && NovaImages(docs)[k] == NovaImageFor(docs[i])
    ensures NovaImages(docs)[k].NovaImage?
    ensures NovaImages(docs)[k].format == "png" || NovaImages(docs)[k].format == "jpeg"
    decreases |docs|
  {
    var head := if docs[0].mediaType == Pdf then [] else [NovaImageFor(docs[0])];
    assert NovaImages(docs) == head + NovaImages(docs[1..]);
    if k < |head| {
      assert NovaImages(docs)[k] == NovaImageFor(docs[0]);
    } else {
      NovaImagesFromImages(docs[1..], k - |head|);
      var i :| 0 <= i < |docs[1..]| && docs[1..][i].mediaType != Pdf
        && NovaImages(docs[1..])[k - |head|] == NovaImageFor(docs[1..][i]);
      assert docs[i + 1] == docs[1..][i];
    }
  }

  /** The Nova content starts with the prompt, and a PDF-only request sends the prompt alone. */
  lemma NovaLayout(modelId: string, prompt: string, docs: seq<Document>)
    requires FamilyOf(modelId) == Nova
    ensures var b := RequestBody(modelId, prompt, docs);
      b.NovaBody? && |b.novaMessages| == 1 && b.novaMessages[0].content[0] == NovaText(prompt)
      && b.novaMessages[0].content[1..] == NovaImages(docs)
    ensures (forall i :: 0 <= i < |docs| ==> docs[i].mediaType == Pdf) ==>
      RequestBody(modelId, prompt, docs).novaMessages[0].content == [NovaText(prompt)]
  {
    var b := RequestBody(modelId, prompt, docs);
    assert ([NovaText(prompt)] + NovaImages(docs))[1..] == NovaImages(docs);
    if forall i :: 0 <= i < |docs| ==> docs[i].mediaType == Pdf {
      OnlyPdfs(docs);
    }
  }

  lemma {:induction false} OnlyPdfs(docs: seq<Document>)
    requires forall i :: 0 <= i < |docs| ==> docs[i].mediaType == Pdf
    ensures NovaImages(docs) == []
  {
    if docs != [] {
      OnlyPdfs(docs[1..]);
    }
  }

  // ----- Reading the reply -----

  const NullTextError := "Cannot read properties of null (reading 'text')"
  const UndefinedTextError := "Cannot read properties of undefined (reading 'text')"
  const NovaFindError := "decoded.output.message.content.find is not a function"
  const ContentFindError := "decoded.content.find is not a function"

  /** `v[0]`: the first element of an array, the first character of a string, an object's key "0". */
  function First(v: Value): Value {
    match v
    case Arr(xs) => if xs == [] then Undef else xs[0]
    case Str(s) => if s == [] then Undef else Str([s[0]])
    case Obj(_) => Get(v, "0")
    case _ => Undef
  }

  /** `items.find(item => item.text)`: the first item with a truthy `text`; reading `text`
      off a null item throws. */
  function FindText(items: seq<Value>): (r: Result<Option<Value>>)
    ensures r.Ok? && r.value.Some? ==> Truthy(r.value.value)
  {
    if items == [] then Ok(None)
    else if items[0].Null? then Err(NullTextError)
    else if items[0].Undef? then Err(UndefinedTextError)
    else if Truthy(Get(items[0], "text")) then Ok(Some(Get(items[0], "text")))
    else FindText(items[1..])
  }

  /** An item with a falsy `text` is passed over. */
  predicate Skipped(item: Value) { !IsNullish(item) && !Truthy(Get(item, "text")) }

  /** `find` returns the `text` of the first item with a truthy one when every item before it is skipped. */
  lemma {:induction false} FindTextAt(items: seq<Value>, k: nat)
    requires k < |items| && !IsNullish(items[k]) && Truthy(Get(items[k], "text"))
    requires forall j :: 0 <= j < k ==> Skipped(items[j])
    ensures FindText(items) == Ok(Some(Get(items[k], "text")))
  {
    if k > 0 {
      assert Skipped(items[0]);
      FindTextAt(items[1..], k - 1);
    }
  }

  /** `find` comes back empty when every item is skipped. */
  lemma {:induction false} FindTextNone(items: seq<Value>)
    requires forall j :: 0 <= j < |items| ==> Skipped(items[j])
    ensures FindText(items) == Ok(None)
  {
    if items != [] {
      assert Skipped(items[0]);
      FindTextNone(items[1..]);
    }
  }

  /** `list.find(...)?.text ?? ""`; only an array has a `find`. */
  function TextPart(list: Value, notAFunction: string): Result<Value> {
    if !list.Arr? then Err(notAFunction)
    else match FindText(list.items)
      case Err(m) => Err(m)
      case Ok(found) => Ok(if found.Some? then found.value else Str(""))
  }

  function NovaContent(decoded: Value): Value { Get(Get(Get(decoded, "output"), "message"), "content") }

  /** `parseResponse` after `JSON.parse`: Titan results, then Nova content, then Anthropic
      content, then `completion`, then `message.content`, else the empty string. */
  function ReplyText(decoded: Value): Result<Value> {
    var results := Get(decoded, "results");
    if Truthy(JsLength(results)) && Get(First(results), "outputText").Str? then
      Ok(Get(First(results), "outputText"))
    else if Truthy(JsLength(NovaContent(decoded))) then
      TextPart(NovaContent(decoded), NovaFindError)
    else if Truthy(JsLength(Get(decoded, "content"))) then
      TextPart(Get(decoded, "content"), ContentFindError)
    else if Truthy(Get(decoded, "completion")) then
      Ok(Get(decoded, "completion"))
    else if Truthy(Get(Get(decoded, "message"), "content")) then
      Ok(Get(Get(decoded, "message"), "content"))
    else
      Ok(Str(""))
  }

  /** `parseResponse` on the decoded response body; a syntax error propagates as a failure. */
  function ParseResponse(bodyText: string, parse: string -> ParseOutcome): (r: Result<Value>)
    ensures parse(bodyText).SyntaxError? ==> r == Err(parse(bodyText).message)
    ensures parse(bodyText).Parsed? ==> r == ReplyText(parse(bodyText).value)
  {
    match parse(bodyText)
    case SyntaxError(m) => Err(m)
    case Parsed(v) => ReplyText(v)
  }

  /** A Titan result string wins over everything else in the body. */
  lemma TitanFirst(decoded: Value, text: string)
    requires Get(decoded, "results").Arr? && |Get(decoded, "results").items| > 0
    requires Get(Get(decoded, "results").items[0], "outputText") == Str(text)
    ensures ReplyText(decoded) == Ok(Str(text))
  {
  }

  /** Without a Titan result, the first Nova part with text is the reply, whatever else the body holds. */
  lemma NovaSecond(decoded: Value, k: nat)
    requires !Get(First(Get(decoded, "results")), "outputText").Str?
    requires NovaContent(decoded).Arr? && k < |NovaContent(decoded).items|
    requires var items := NovaContent(decoded).items;
      !IsNullish(items[k]) && Truthy(Get(items[k], "text")) && forall j :: 0 <= j < k ==> Skipped(items[j])
    ensures ReplyText(decoded) == Ok(Get(NovaContent(decoded).items[k], "text"))
  {
    FindTextAt(NovaContent(decoded).items, k);
  }

  /** A non-empty content list without any text part gives the empty reply and does not fall
      through to `completion`. */
  lemma ContentWithoutText(decoded: Value)
    requires !Get(First(Get(decoded, "results")), "outputText").Str?
    requires !Truthy(JsLength(NovaContent(decoded)))
    requires Get(decoded, "content").Arr? && |Get(decoded, "content").items| > 0
    requires forall j :: 0 <= j < |Get(decoded, "content").items| ==> Skipped(Get(decoded, "content").items[j])
    ensures ReplyText(decoded) == Ok(Str(""))
  {
    FindTextNone(Get(decoded, "content").items);
  }

  /** A content list that is not an array makes `find` throw. */
  lemma ContentNotAList(decoded: Value)
    requires !Get(First(Get(decoded, "results")), "outputText").Str?
    requires !Truthy(JsLength(NovaContent(decoded)))
    requires Truthy(JsLength(Get(decoded, "content"))) && !Get(decoded, "content").Arr?
    ensures ReplyText(decoded) == Err(ContentFindError)
  {
  }

  /** When no list has a length, `completion`, then `message.content`, then "" is the reply. */
  lemma Fallthrough(decoded: Value)
    requires !Truthy(JsLength(Get(decoded, "results")))
    requires !Truthy(JsLength(NovaContent(decoded))) && !Truthy(JsLength(Get(decoded, "content")))
    ensures Truthy(Get(decoded, "completion")) ==> ReplyText(decoded) == Ok(Get(decoded, "completion"))
    ensures !Truthy(Get(decoded, "completion")) && Truthy(Get(Get(decoded, "message"), "content"))
      ==> ReplyText(decoded) == Ok(Get(Get(decoded, "message"), "content"))
    ensures !Truthy(Get(decoded, "completion")) && !Truthy(Get(Get(decoded, "message"), "content"))
      ==> ReplyText(decoded) == Ok(Str(""))
  {
  }

  // ----- Failover -----

  /** The error phrases that make the secondary model worth a try; matched case-sensitively. */
  const FallbackPhrases: seq<string> := [
    "on-demand throughput isn't supported",
    "inference profile",
    "Inference profile",
    "reached the end of its life",
    "model identifier is invalid",
    "Malformed input request",
    "extraneous key",
    "aws-marketplace:ViewSubscriptions",
    "aws-marketplace:Subscribe",
    "Marketplace subscription"]

  /** `shouldFallbackToSecondary` on the error's message. */
  predicate ShouldFallback(message: string) {
    ContainsPhraseFrom(message, 0)
  }

  /** The chain of `includes` tests from the `i`-th phrase on, in the source's order. */
  predicate ContainsPhraseFrom(message: string, i: nat)
    decreases |FallbackPhrases| - i
  {
    i < |FallbackPhrases| && (Contains(message, FallbackPhrases[i]) || ContainsPhraseFrom(message, i + 1))
  }

  /** Failover is wanted exactly when the message contains one of the phrases. */
  lemma ShouldFallbackIff(message: string)
    ensures ShouldFallback(message) <==> exists i :: 0 <= i < |FallbackPhrases| && Contains(message, FallbackPhrases[i])
  {
    ContainsPhraseFromIff(message, 0);
  }

  lemma {:induction false} ContainsPhraseFromIff(message: string, i: nat)
    ensures ContainsPhraseFrom(message, i) <==>
      exists k :: i <= k < |FallbackPhrases| && Contains(message, FallbackPhrases[k])
    decreases |FallbackPhrases| - i
  {
    if i < |FallbackPhrases| {
      ContainsPhraseFromIff(message, i + 1);
    }
  }

  /** No phrase is empty, so an error without a message never fails over. */
  lemma EmptyMessageNoFallback()
    ensures !ShouldFallback("")
  {
    forall i | 0 <= i < |FallbackPhrases|
      ensures !Contains("", FallbackPhrases[i])
    {
      assert |FallbackPhrases[i]| > 0;
    }
  }

  /** `invokeBedrock` tries the fallback model only when one is configured, it is not the
      model that failed, and the error asks for it. */
  predicate CanFallback(fallbackId: string, modelId: string, message: string) {
    fallbackId != "" && fallbackId != modelId && ShouldFallback(message)
  }

  // ----- Invocation -----

  datatype Request = Request(modelId: string, body: Body)

  /** What the service does with a request: a response body, or an error with its message. */
  datatype SendOutcome = Responded(bodyText: string) | Failed(message: string)

  /** What `invokeOnce` returns: the reply text and the model that produced it. */
  datatype Reply = Reply(text: Value, modelId: string)

  /** The runtime client; `respond` says what the service answers to the n-th request. */
  class ModelClient {
    var sent: seq<Request>
    const respond: (nat, Request) -> SendOutcome

    constructor (respond: (nat, Request) -> SendOutcome)
      ensures sent == [] && this.respond == respond
    {
      sent := [];
      this.respond := respond;
    }

    method Send(r: Request) returns (o: SendOutcome)
      modifies this
      ensures sent == old(sent) + [r]
      ensures o == respond(|old(sent)|, r)
    {
      o := respond(|sent|, r);
      sent := sent + [r];
    }
  }

  function RequestFor(modelId: string, prompt: string, docs: seq<Document>): Request {
    Request(modelId, RequestBody(modelId, prompt, docs))
  }

  /**
   * The `TypeError` of logging `text?.slice(0, 300)` when the reply text is a
   * number, a boolean or an object: none of them has a `slice` method.
   */
  const SliceError := "text?.slice is not a function"

  /** The reply text survives the log line: `null`, `undefined`, a string or an array. */
  predicate Sliceable(text: Value) {
    !text.Num? && !text.Bool? && !text.Obj?
  }

  /** The outcome of one `invokeOnce` given what the service answered. */
  function OnceOutcome(o: SendOutcome, parse: string -> ParseOutcome, modelId: string): (r: Result<Reply>)
    ensures r.Ok? ==> Sliceable(r.value.text) && r.value.modelId == modelId
  {
    match o
    case Failed(m) => Err(m)
    case Responded(t) =>
      match ParseResponse(t, parse)
      case Err(m) => Err(m)
      case Ok(text) => if Sliceable(text) then Ok(Reply(text, modelId)) else Err(SliceError)
  }

  /** The outcome of `invokeBedrock` and the requests it sends, the first being the `n`-th. */
  function Invocation(respond: (nat, Request) -> SendOutcome, n: nat, parse: string -> ParseOutcome,
                      fallbackId: string, modelId: string, prompt: string, docs: seq<Document>)
    : (Result<Reply>, seq<Request>)
  {
    var first := RequestFor(modelId, prompt, docs);
    var primary := OnceOutcome(respond(n, first), parse, modelId);
    if primary.Err? && CanFallback(fallbackId, modelId, primary.message) then
      var second := RequestFor(fallbackId, prompt, docs);
      (OnceOutcome(respond(n + 1, second), parse, fallbackId), [first, second])
    else
      (primary, [first])
  }

  method InvokeOnce(client: ModelClient, parse: string -> ParseOutcome,
                    modelId: string, prompt: string, docs: seq<Document>) returns (r: Result<Reply>)
    modifies client
    ensures client.sent == old(client.sent) + [RequestFor(modelId, prompt, docs)]
    ensures r == OnceOutcome(client.respond(|old(client.sent)|, RequestFor(modelId, prompt, docs)), parse, modelId)
  {
    var body := BuildRequestBody(modelId, prompt, docs);
    var o := client.Send(Request(modelId, body));
    if o.Failed? {
      r := Err(o.message);
    } else {
      var text := ParseResponse(o.bodyText, parse);
      if text.Err? {
        r := Err(text.message);
      } else if text.value.Num? || text.value.Bool? || text.value.Obj? {
        r := Err(SliceError);
      } else {
        r := Ok(Reply(text.value, modelId));
      }
    }
  }

  /** `invokeBedrock`: one try, and on a failure that calls for it one try with the fallback model. */
  method InvokeBedrock(client: ModelClient, parse: string -> ParseOutcome, fallbackId: string,
                       modelId: string, prompt: string, docs: seq<Document>) returns (r: Result<Reply>)
    modifies client
    ensures var (outcome, requests) := Invocation(client.respond, |old(client.sent)|, parse, fallbackId, modelId, prompt, docs);
      r == outcome && client.sent == old(client.sent) + requests
  {
    r := InvokeOnce(client, parse, modelId, prompt, docs);
    if r.Err? && CanFallback(fallbackId, modelId, r.message) {
      r := InvokeOnce(client, parse, fallbackId, prompt, docs);
    }
  }

  /** One or two requests are sent; the first always goes to the requested model. */
  lemma AtMostTwoRequests(respond: (nat, Request) -> SendOutcome, n: nat, parse: string -> ParseOutcome,
                          fallbackId: string, modelId: string, prompt: string, docs: seq<Document>)
    ensures var (_, requests) := Invocation(respond, n, parse, fallbackId, modelId, prompt, docs);
      1 <= |requests| <= 2 && requests[0] == RequestFor(modelId, prompt, docs)
  {
  }

  /** A second request is sent exactly when the first failed with an error that allows failover,
      and it goes to the fallback model. */
  lemma SecondRequestIff(respond: (nat, Request) -> SendOutcome, n: nat, parse: string -> ParseOutcome,
                         fallbackId: string, modelId: string, prompt: string, docs: seq<Document>)
    ensures var (_, requests) := Invocation(respond, n, parse, fallbackId, modelId, prompt, docs);
      var primary := OnceOutcome(respond(n, RequestFor(modelId, prompt, docs)), parse, modelId);
      (|requests| == 2 <==> primary.Err? && CanFallback(fallbackId, modelId, primary.message))
      && (|requests| == 2 ==> requests[1] == RequestFor(fallbackId, prompt, docs) && fallbackId != modelId)
  {
  }

  /** A reply names the model that was actually invoked last. */
  lemma ReplyNamesInvokedModel(respond: (nat, Request) -> SendOutcome, n: nat, parse: string -> ParseOutcome,
                               fallbackId: string, modelId: string, prompt: string, docs: seq<Document>)
    ensures var (outcome, requests) := Invocation(respond, n, parse, fallbackId, modelId, prompt, docs);
      outcome.Ok? ==> outcome.value.modelId == requests[|requests| - 1].modelId
  {
  }

  /** Without failover the first outcome, success or error, is returned unchanged; after failover
      the fallback's outcome is, so its error propagates too. */
  lemma OutcomePropagates(respond: (nat, Request) -> SendOutcome, n: nat, parse: string -> ParseOutcome,
                          fallbackId: string, modelId: string, prompt: string, docs: seq<Document>)
    ensures var (outcome, requests) := Invocation(respond, n, parse, fallbackId, modelId, prompt, docs);
      var primary := OnceOutcome(respond(n, RequestFor(modelId, prompt, docs)), parse, modelId);
      (|requests| == 1 ==> outcome == primary)
      && (|requests| == 2 ==> outcome == OnceOutcome(respond(n + 1, RequestFor(fallbackId, prompt, docs)), parse, fallbackId))
  {
  }

  /**
   * A reply text that is a number, a boolean or an object fails the call with
   * the log line's `TypeError`.
   */
  lemma UnsliceableTextFails(bodyText: string, parse: string -> ParseOutcome, modelId: string)
    requires ParseResponse(bodyText, parse).Ok? && !Sliceable(ParseResponse(bodyText, parse).value)
    ensures OnceOutcome(Responded(bodyText), parse, modelId) == Err(SliceError)
  {
  }

  /** Every request carries `prompt` and `docs`, whichever model it went to. */
  predicate SentWith(requests: seq<Request>, prompt: string, docs: seq<Document>) {
    forall i :: 0 <= i < |requests| ==> requests[i] == RequestFor(requests[i].modelId, prompt, docs)
  }

  /** Every request went to model `a` or model `b`. */
  predicate ModelsAmong(requests: seq<Request>, a: string, b: string) {
    forall i :: 0 <= i < |requests| ==> requests[i].modelId == a || requests[i].modelId == b
  }

  /** The retry resends the same prompt and documents, to the requested or the fallback model. */
  lemma InvocationRequests(respond: (nat, Request) -> SendOutcome, n: nat, parse: string -> ParseOutcome,
                           fallbackId: string, modelId: string, prompt: string, docs: seq<Document>)
    ensures var (_, requests) := Invocation(respond, n, parse, fallbackId, modelId, prompt, docs);
      SentWith(requests, prompt, docs) && ModelsAmong(requests, modelId, fallbackId)
  {
  }

  /** With no fallback model configured exactly one request is sent. */
  lemma NoFallbackConfigured(respond: (nat, Request) -> SendOutcome, n: nat, parse: string -> ParseOutcome,
                             modelId: string, prompt: string, docs: seq<Document>)
    ensures Invocation(respond, n, parse, "", modelId, prompt, docs).1 == [RequestFor(modelId, prompt, docs)]
  {
  }
}
