/**
 * The S3 trigger of backend/src/upload-ingest.ts: every object created under
 * `attachments/` becomes a PENDING invoice item and a queue message for the
 * extractor, or, when it is larger than the upload limit, a FAILED item and no
 * message.
 *
 * `decodeURIComponent` is a parameter (its `URIError` ends the handler) and the
 * clock is read once per record through `clock(i)`.
 */
module UploadIngest {
  import opened Wrappers
  import opened Strings
  import opened Api

  const Prefix := "attachments/"

  /** 90 days, the item's time to live in seconds. */
  const TtlSeconds := 60 * 60 * 24 * 90

  const TooLargeError := "file_too_large"
  const ManualUpload := "manual-upload"

  // ---------------------------------------------------------------------------
  // parseAttachmentKey
  // ---------------------------------------------------------------------------

  datatype AttachmentRef = AttachmentRef(messageId: string, attachmentId: string, safeName: string)

  /** `[attachmentId, ...rest] = file.split("_")` and `rest.join("_") || file`. */
  function FileRef(messageId: string, file: string): AttachmentRef {
    var pieces := Split(file, '_');
    var rest := Join(pieces[1..], "_");
    AttachmentRef(messageId, pieces[0], if rest != "" then rest else file)
  }

  /** `parseAttachmentKey`: the second and third `/`-separated parts, with defaults when absent. */
  function ParseAttachmentKey(key: string): AttachmentRef {
    var parts := Split(key, '/');
    var messageId := if |parts| > 1 then parts[1] else "unknown";
    var file := if |parts| > 2 then parts[2] else "attachment";
    FileRef(messageId, file)
  }

  /** A file part without `_` is both the attachment id and the name. */
  lemma FileWithoutUnderscore(messageId: string, file: string)
    requires '_' !in file
    ensures FileRef(messageId, file) == AttachmentRef(messageId, file, file)
  {
    SplitNone(file, '_');
  }

  /** The attachment id is the text before the first `_`; the name is all after it, or the whole part when that is empty. */
  lemma FileWithUnderscore(messageId: string, id: string, rest: string)
    requires '_' !in id
    ensures FileRef(messageId, id + "_" + rest)
         == AttachmentRef(messageId, id, if rest != "" then rest else id + "_" + rest)
  {
    SplitCons(id, '_', rest);
    assert Split(id + "_" + rest, '_')[1..] == Split(rest, '_');
    JoinSplit(rest, '_');
  }

  /** A key without `/` names message "unknown" and attachment "attachment". */
  lemma KeyWithoutSlash(key: string)
    requires '/' !in key
    ensures ParseAttachmentKey(key) == AttachmentRef("unknown", "attachment", "attachment")
  {
    SplitNone(key, '/');
    FileWithoutUnderscore("unknown", "attachment");
  }

  /** Parts after the third `/`-separated one are ignored. */
  lemma ExtraSegmentsIgnored(root: string, messageId: string, file: string, more: string)
    requires '/' !in root && '/' !in messageId && '/' !in file
    ensures ParseAttachmentKey(root + "/" + messageId + "/" + file + "/" + more)
         == FileRef(messageId, file)
  {
    assert root + "/" + messageId + "/" + file + "/" + more == root + "/" + (messageId + "/" + (file + "/" + more));
    SplitCons(root, '/', messageId + "/" + (file + "/" + more));
    SplitCons(messageId, '/', file + "/" + more);
    SplitCons(file, '/', more);
  }

  /**
   * `attachments/{m}/{a}_{s}` parses back to `(m, a, s)` when `m` has no `/`,
   * `a` has neither `/` nor `_`, and `s` is non-empty without `/`.
   */
  lemma KeyRoundTrip(messageId: string, attachmentId: string, name: string)
    requires '/' !in messageId && '/' !in attachmentId && '_' !in attachmentId
    requires name != "" && '/' !in name
    ensures ParseAttachmentKey(Prefix + messageId + "/" + attachmentId + "_" + name)
         == AttachmentRef(messageId, attachmentId, name)
  {
    var file := attachmentId + "_" + name;
    assert '/' !in file;
    var key := Prefix + messageId + "/" + attachmentId + "_" + name;
    assert key == "attachments" + "/" + messageId + "/" + file;
    SplitThree("attachments", messageId, file, '/');
    FileWithUnderscore(messageId, attachmentId, name);
  }

  /**
   * The trigger reads back what the upload endpoint wrote: the ids and the
   * sanitised name of a key built by `createUpload`.
   */
  lemma UploadKeyRoundTrip(messageId: string, attachmentId: string, filename: string)
    requires '/' !in messageId && '/' !in attachmentId && '_' !in attachmentId
    requires filename != ""
    ensures ParseAttachmentKey(UploadKey(messageId, attachmentId, filename))
         == AttachmentRef(messageId, attachmentId, SafeName(filename))
  {
    SafeNameHasNoSlash(filename);
    KeyRoundTrip(messageId, attachmentId, SafeName(filename));
  }

  // ---------------------------------------------------------------------------
  // Items and messages
  // ---------------------------------------------------------------------------

  datatype Status = Pending | Failed

  /** The invoice item `putItem` stores; `None` in `rawEmailS3Key` is `null`, in `updatedAt` an absent field. */
  datatype IngestItem = IngestItem(
    messageId: string, attachmentKey: string, attachmentId: string, status: Status,
    receivedAt: string, from: string, subject: string, rawEmailS3Key: Option<string>,
    attachmentS3Key: string, gsi1pk: string, gsi1sk: string, ttl: int, sizeBytes: real,
    updatedAt: Option<string>, errors: seq<string>)

  /** The queue message body before `JSON.stringify`. */
  datatype QueueMessage = QueueMessage(
    messageId: string, attachmentId: string, attachmentKey: string,
    receivedAt: string, from: string, subject: string, rawEmailS3Key: Option<string>)

  /** The clock readings for one record: the ISO receive time, `Date.now()` and the FAILED update time. */
  datatype Clock = Clock(receivedAt: string, nowMillis: int, updatedAt: string)

  /** One record of the S3 event: the URL-encoded key and the reported size. */
  datatype S3Record = S3Record(key: string, size: Option<real>)

  /** `Math.floor(nowMillis / 1000) + 90 days`; Dafny's division floors for a positive divisor. */
  function Ttl(nowMillis: int): (t: int)
    ensures (t - TtlSeconds) * 1000 <= nowMillis < (t - TtlSeconds + 1) * 1000
  {
    nowMillis / 1000 + TtlSeconds
  }

  /** `${receivedAt}#${messageId}#${attachmentId}` */
  function SortKey(receivedAt: string, messageId: string, attachmentId: string): string {
    receivedAt + "#" + messageId + "#" + attachmentId
  }

  /** The sort key splits back into its three parts when none contains `#`. */
  lemma SortKeyParts(receivedAt: string, messageId: string, attachmentId: string)
    requires '#' !in receivedAt && '#' !in messageId && '#' !in attachmentId
    ensures Split(SortKey(receivedAt, messageId, attachmentId), '#') == [receivedAt, messageId, attachmentId]
  {
    SplitThree(receivedAt, messageId, attachmentId, '#');
  }

  /** The PENDING item for a decoded key. */
  function ItemFor(key: string, size: real, clock: Clock): IngestItem {
    var ref := ParseAttachmentKey(key);
    IngestItem(
      ref.messageId, key, ref.attachmentId, Pending, clock.receivedAt, ManualUpload, ref.safeName, None,
      key, "INVOICE", SortKey(clock.receivedAt, ref.messageId, ref.attachmentId), Ttl(clock.nowMillis), size,
      None, [])
  }

  /** The message sent for a PENDING item. */
  function MessageFor(item: IngestItem): QueueMessage {
    QueueMessage(item.messageId, item.attachmentId, item.attachmentKey, item.receivedAt, ManualUpload, item.subject, None)
  }

  /** What one record stores and sends. */
  datatype Effect = Effect(puts: seq<IngestItem>, sends: seq<QueueMessage>)

  /** One iteration of the handler's loop for a decoded key; `size` is `object.size ?? 0`. */
  function RecordEffect(key: string, size: real, clock: Clock, maxBytes: JsNumber): Effect {
    if !StartsWith(key, Prefix) then Effect([], [])
    else
      var item := ItemFor(key, size, clock);
      if Exceeds(size, maxBytes) then
        Effect([item.(status := Failed, updatedAt := Some(clock.updatedAt), errors := [TooLargeError])], [])
      else Effect([item], [MessageFor(item)])
  }

  /**
   * A key outside `attachments/` is ignored; an oversized one is stored once as
   * FAILED with the single error "file_too_large" and not queued; any other is
   * stored once as PENDING and queued once, the message carrying the item's ids,
   * key, time and name, with "manual-upload" as the sender.
   */
  lemma RecordOutcome(key: string, size: real, clock: Clock, maxBytes: JsNumber)
    ensures var e := RecordEffect(key, size, clock, maxBytes); var ref := ParseAttachmentKey(key);
      && (!StartsWith(key, Prefix) <==> e == Effect([], []))
      && (StartsWith(key, Prefix) ==>
            && |e.puts| == 1
            && e.puts[0].messageId == ref.messageId && e.puts[0].attachmentId == ref.attachmentId
            && e.puts[0].subject == ref.safeName && e.puts[0].attachmentKey == key
            && e.puts[0].attachmentS3Key == key && e.puts[0].gsi1pk == "INVOICE"
            && e.puts[0].sizeBytes == size && e.puts[0].ttl == Ttl(clock.nowMillis))
      && (StartsWith(key, Prefix) && Exceeds(size, maxBytes) ==>
            e.sends == [] && e.puts[0].status == Failed && e.puts[0].errors == [TooLargeError]
            && e.puts[0].updatedAt == Some(clock.updatedAt))
      && (StartsWith(key, Prefix) && !Exceeds(size, maxBytes) ==>
            && e.puts[0].status == Pending && e.puts[0].errors == [] && e.puts[0].updatedAt.None?
            && e.sends == [QueueMessage(ref.messageId, ref.attachmentId, key, clock.receivedAt,
                                        ManualUpload, ref.safeName, None)])
  {
  }

  /**
   * A file uploaded through `createUpload` is stored under the ids the endpoint
   * returned and named by its sanitised file name, and is queued unless it is
   * too large.
   */
  lemma UploadedFileIngested(messageId: string, attachmentId: string, filename: string, size: real, clock: Clock, maxBytes: JsNumber)
    requires '/' !in messageId && '/' !in attachmentId && '_' !in attachmentId
    requires filename != ""
    ensures var key := UploadKey(messageId, attachmentId, filename); var e := RecordEffect(key, size, clock, maxBytes);
      && |e.puts| == 1
      && e.puts[0].messageId == messageId && e.puts[0].attachmentId == attachmentId
      && e.puts[0].subject == SafeName(filename)
      && (|e.sends| == 1 <==> !Exceeds(size, maxBytes))
  {
    var key := UploadKey(messageId, attachmentId, filename);
    var rest := messageId + "/" + attachmentId + "_" + SafeName(filename);
    assert key == Prefix + rest;
    StartsWithAppend(Prefix, rest);
    UploadKeyRoundTrip(messageId, attachmentId, filename);
    RecordOutcome(key, size, clock, maxBytes);
  }

  /** `key.replace(/\+/g, " ")` */
  function PlusToSpace(s: string): (r: string)
    ensures |r| == |s| && '+' !in r
    ensures forall i :: 0 <= i < |s| ==> r[i] == (if s[i] == '+' then ' ' else s[i])
  {
    seq(|s|, i requires 0 <= i < |s| => if s[i] == '+' then ' ' else s[i])
  }

  /** The decoded key of a record; `decode` is `decodeURIComponent`, `Err` a thrown `URIError`. */
  function KeyOf(rec: S3Record, decode: string -> Result<string>): Result<string> {
    decode(PlusToSpace(rec.key))
  }

  /**
   * What the handler cannot see: `decodeURIComponent` (`Err` is a thrown
   * `URIError`), the clock readings for record `i`, and `MAX_UPLOAD_BYTES`.
   */
  datatype Env = Env(decode: string -> Result<string>, clock: nat -> Clock, maxBytes: JsNumber)

  /** The effect of the `i`-th record, nothing if its key does not decode. */
  function EffectAt(records: seq<S3Record>, i: nat, env: Env): Effect
    requires i < |records|
  {
    var key := KeyOf(records[i], env.decode);
    if key.Err? then Effect([], [])
    else RecordEffect(key.value, records[i].size.GetOr(0.0), env.clock(i), env.maxBytes)
  }

  /** The items stored by a sequence of effects. */
  function PutsOf(es: seq<Effect>): seq<IngestItem> {
    if es == [] then [] else PutsOf(es[..|es| - 1]) + es[|es| - 1].puts
  }

  /** The messages sent by a sequence of effects. */
  function SendsOf(es: seq<Effect>): seq<QueueMessage> {
    if es == [] then [] else SendsOf(es[..|es| - 1]) + es[|es| - 1].sends
  }

  /** One more effect adds its items and its messages at the end. */
  lemma OfSnoc(es: seq<Effect>, e: Effect)
    ensures PutsOf(es + [e]) == PutsOf(es) + e.puts && SendsOf(es + [e]) == SendsOf(es) + e.sends
  {
    assert (es + [e])[..|es|] == es;
  }

  /** At most one item per record, and a message only right after the PENDING item it announces. */
  predicate Announces(e: Effect) {
    && |e.sends| <= |e.puts| <= 1
    && (e.sends != [] ==> e.puts[0].status == Pending && e.sends == [MessageFor(e.puts[0])])
  }

  lemma EffectAtAnnounces(records: seq<S3Record>, i: nat, env: Env)
    requires i < |records|
    ensures Announces(EffectAt(records, i, env))
  {
  }

  /** No more messages are sent than items stored, and no more items than effects. */
  lemma {:induction false} SendsAtMostPuts(es: seq<Effect>)
    requires forall i :: 0 <= i < |es| ==> Announces(es[i])
    ensures |SendsOf(es)| <= |PutsOf(es)| <= |es|
  {
    if es != [] {
      SendsAtMostPuts(es[..|es| - 1]);
      assert Announces(es[|es| - 1]);
    }
  }

  /** Every message sent announces a PENDING item stored no later. */
  lemma {:induction false} SendsFollowPendingPuts(es: seq<Effect>)
    requires forall i :: 0 <= i < |es| ==> Announces(es[i])
    ensures forall m :: m in SendsOf(es) ==>
              exists item :: item in PutsOf(es) && item.status == Pending && MessageFor(item) == m
  {
    if es != [] {
      var init, e := es[..|es| - 1], es[|es| - 1];
      SendsFollowPendingPuts(init);
      assert Announces(e);
      var ps, ss := PutsOf(init), SendsOf(init);
      forall m | m in ss + e.sends
        ensures exists item :: item in ps + e.puts && item.status == Pending && MessageFor(item) == m
      {
        if m in ss {
          var item :| item in ps && item.status == Pending && MessageFor(item) == m;
          assert item in ps + e.puts;
        } else {
          assert e.puts[0] in ps + e.puts;
        }
      }
    }
  }

  // ---------------------------------------------------------------------------
  // Failing calls
  // ---------------------------------------------------------------------------

  /** The table's answer to its `i`-th `putItem`: `Some` is the error it throws. */
  function PutAnswer(rejectPut: (nat, IngestItem) -> Option<string>, i: nat, item: IngestItem): Option<string> {
    rejectPut(i, item)
  }

  /** The queue's answer to its `i`-th `send`: `Some` is the error it throws. */
  function SendAnswer(rejectSend: (nat, QueueMessage) -> Option<string>, i: nat, message: QueueMessage): Option<string> {
    rejectSend(i, message)
  }

  /** What one loop iteration throws, and what it stores and sends before that. */
  datatype Step = Step(thrown: Option<string>, effect: Effect)

  /**
   * The calls of one record's effect, in order, its put being the table's
   * `m`-th call and its send the queue's `q`-th: a rejected put throws and
   * the send is not made; otherwise what is thrown is the queue's answer.
   */
  function Perform(e: Effect, rejectPut: (nat, IngestItem) -> Option<string>,
                   rejectSend: (nat, QueueMessage) -> Option<string>, m: nat, q: nat): Step
  {
    if e.puts == [] then Step(None, e)
    else
      var err := PutAnswer(rejectPut, m, e.puts[0]);
      if err.Some? then Step(err, Effect(e.puts, []))
      else if e.sends == [] then Step(None, e)
      else Step(SendAnswer(rejectSend, q, e.sends[0]), e)
  }

  /**
   * Performing an effect keeps its items; it has the whole effect exactly
   * when nothing is thrown or the throw comes from the send; and it
   * announces whatever the effect announces.
   */
  lemma PerformFacts(e: Effect, rejectPut: (nat, IngestItem) -> Option<string>,
                     rejectSend: (nat, QueueMessage) -> Option<string>, m: nat, q: nat)
    requires Announces(e)
    ensures var st := Perform(e, rejectPut, rejectSend, m, q);
      && st.effect.puts == e.puts
      && Announces(st.effect)
      && (st.thrown.None? ==> st.effect == e)
      && (st.thrown.Some? ==>
            || (|e.puts| == 1 && st.thrown == PutAnswer(rejectPut, m, e.puts[0]) && st.effect.sends == [])
            || (|e.sends| == 1 && st.thrown == SendAnswer(rejectSend, q, e.sends[0]) && st.effect == e))
  {
  }

  // ---------------------------------------------------------------------------
  // The loop over the records
  // ---------------------------------------------------------------------------

  /** What one record is set to do: throw the error of its key, or make the calls of its effect. */
  datatype Plan = Plan(error: Option<string>, effect: Effect)

  /** The `i`-th record's plan: a key that does not decode throws its `URIError` and makes no call. */
  function PlanAt(records: seq<S3Record>, i: nat, env: Env): Plan
    requires i < |records|
  {
    var key := KeyOf(records[i], env.decode);
    Plan(if key.Err? then Some(key.message) else None, EffectAt(records, i, env))
  }

  /** The plans of the records, in order. */
  function PlansOf(records: seq<S3Record>, env: Env): (plans: seq<Plan>)
    ensures |plans| == |records|
  {
    PlansUpTo(records, env, |records|)
  }

  /** The plans of the first `n` records. */
  function PlansUpTo(records: seq<S3Record>, env: Env, n: nat): (plans: seq<Plan>)
    requires n <= |records|
    ensures |plans| == n
  {
    if n == 0 then [] else PlansUpTo(records, env, n - 1) + [PlanAt(records, n - 1, env)]
  }

  /** The `i`-th plan is the `i`-th record's. */
  lemma {:induction false} PlanOfRecord(records: seq<S3Record>, env: Env, n: nat, i: nat)
    requires i < n <= |records|
    ensures PlansUpTo(records, env, n)[i] == PlanAt(records, i, env)
    decreases n
  {
    if i < n - 1 {
      PlanOfRecord(records, env, n - 1, i);
    }
  }

  /** The `i`-th plan: its error is that of the `i`-th key, and its effect the `i`-th record's. */
  lemma PlanFacts(records: seq<S3Record>, env: Env, i: nat)
    requires i < |records|
    ensures PlansOf(records, env)[i].error.None? <==> KeyOf(records[i], env.decode).Ok?
    ensures KeyOf(records[i], env.decode).Err? ==> PlansOf(records, env)[i].error == Some(KeyOf(records[i], env.decode).message)
    ensures PlansOf(records, env)[i].effect == EffectAt(records, i, env)
  {
    PlanOfRecord(records, env, |records|, i);
  }

  /** Every plan that makes calls announces its message, and a plan that throws makes none. */
  predicate Announcing(plans: seq<Plan>) {
    forall i :: 0 <= i < |plans| ==> Announces(plans[i].effect) && (plans[i].error.Some? ==> plans[i].effect == Effect([], []))
  }

  lemma PlansAnnounce(records: seq<S3Record>, env: Env)
    ensures Announcing(PlansOf(records, env))
  {
    var plans := PlansOf(records, env);
    forall i | 0 <= i < |records|
      ensures Announces(plans[i].effect) && (plans[i].error.Some? ==> plans[i].effect == Effect([], []))
    {
      PlanOfRecord(records, env, |records|, i);
      EffectAtAnnounces(records, i, env);
    }
  }

  /** What is thrown, the effect of each record reached, and all items stored and messages sent, in order. */
  datatype Trace = Trace(thrown: Option<string>, effects: seq<Effect>, puts: seq<IngestItem>, sends: seq<QueueMessage>)

  /** One record's step, given how many puts and sends came before it. */
  type Stepper = (Plan, nat, nat) -> Step

  /** The heap-free application of a stepper. */
  function Stepped(step: Stepper, plan: Plan, m: nat, q: nat): Step {
    step(plan, m, q)
  }

  /**
   * The records' plans, the table having taken `m0` calls and the queue
   * `q0` before them: each record steps at the call counts its predecessors
   * leave, and the first throw ends the run.
   */
  function Run(plans: seq<Plan>, step: Stepper, m0: nat, q0: nat): Trace {
    if plans == [] then Trace(None, [], [], [])
    else
      var prev := Run(plans[..|plans| - 1], step, m0, q0);
      if prev.thrown.Some? then prev
      else
        var st := Stepped(step, plans[|plans| - 1], m0 + |prev.puts|, q0 + |prev.sends|);
        Trace(st.thrown, prev.effects + [st.effect], prev.puts + st.effect.puts, prev.sends + st.effect.sends)
  }

  /** The run of the first `i + 1` plans extends that of the first `i`. */
  lemma RunSnoc(plans: seq<Plan>, step: Stepper, m0: nat, q0: nat, i: nat)
    requires i < |plans|
    ensures var prev := Run(plans[..i], step, m0, q0);
      Run(plans[..i + 1], step, m0, q0)
      == if prev.thrown.Some? then prev
         else var st := Stepped(step, plans[i], m0 + |prev.puts|, q0 + |prev.sends|);
           Trace(st.thrown, prev.effects + [st.effect], prev.puts + st.effect.puts, prev.sends + st.effect.sends)
  {
    assert plans[..i + 1][..i] == plans[..i];
  }

  lemma Associative<T>(a: seq<T>, b: seq<T>, c: seq<T>)
    ensures (a + b) + c == a + (b + c)
  {
  }

  /** A run that has not thrown takes the next plan's step. */
  lemma Advance(plans: seq<Plan>, step: Stepper, m0: nat, q0: nat, i: nat, prev: Trace, st: Step)
    requires i < |plans| && prev == Run(plans[..i], step, m0, q0) && prev.thrown.None?
    requires st == Stepped(step, plans[i], m0 + |prev.puts|, q0 + |prev.sends|)
    ensures Run(plans[..i + 1], step, m0, q0)
            == Trace(st.thrown, prev.effects + [st.effect], prev.puts + st.effect.puts, prev.sends + st.effect.sends)
  {
    RunSnoc(plans, step, m0, q0, i);
  }

  /** A run's items and messages are those of its effects. */
  lemma {:induction false} RunTallies(plans: seq<Plan>, step: Stepper, m0: nat, q0: nat)
    ensures var r := Run(plans, step, m0, q0);
      r.puts == PutsOf(r.effects) && r.sends == SendsOf(r.effects)
    decreases |plans|
  {
    if plans != [] {
      var prev := Run(plans[..|plans| - 1], step, m0, q0);
      RunTallies(plans[..|plans| - 1], step, m0, q0);
      if prev.thrown.None? {
        var st := Stepped(step, plans[|plans| - 1], m0 + |prev.puts|, q0 + |prev.sends|);
        OfSnoc(prev.effects, st.effect);
      }
    }
  }

  /** A run that has thrown stays as it is. */
  lemma {:induction false} ThrowEndsRun(plans: seq<Plan>, step: Stepper, m0: nat, q0: nat, i: nat)
    requires i <= |plans| && Run(plans[..i], step, m0, q0).thrown.Some?
    ensures Run(plans, step, m0, q0) == Run(plans[..i], step, m0, q0)
    decreases |plans| - i
  {
    if i == |plans| {
      assert plans[..i] == plans;
    } else {
      RunSnoc(plans, step, m0, q0, i);
      ThrowEndsRun(plans, step, m0, q0, i + 1);
    }
  }

  /** The first plans of announcing plans announce. */
  lemma InitAnnouncing(plans: seq<Plan>, n: nat)
    requires Announcing(plans) && n <= |plans|
    ensures Announcing(plans[..n])
  {
    var init := plans[..n];
    forall i | 0 <= i < n
      ensures Announces(init[i].effect) && (init[i].error.Some? ==> init[i].effect == Effect([], []))
    {
      assert init[i] == plans[i];
    }
  }

  /** A stepper that keeps announcing effects announcing, and makes a plan's calls when it does not throw. */
  ghost predicate Sound(step: Stepper) {
    forall plan: Plan, m: nat, q: nat {:trigger Stepped(step, plan, m, q)} ::
      Announces(plan.effect) ==>
        && Announces(Stepped(step, plan, m, q).effect)
        && (Stepped(step, plan, m, q).thrown.None? ==>
              plan.error.None? && Stepped(step, plan, m, q).effect == plan.effect)
  }

  /** A run reaches one record per effect, and all of them when nothing is thrown. */
  lemma {:induction false} RunLength(plans: seq<Plan>, step: Stepper, m0: nat, q0: nat)
    ensures var r := Run(plans, step, m0, q0);
      && |r.effects| <= |plans|
      && (r.thrown.None? ==> |r.effects| == |plans|)
      && (r.thrown.Some? ==> |r.effects| >= 1)
    decreases |plans|
  {
    if plans != [] {
      RunLength(plans[..|plans| - 1], step, m0, q0);
    }
  }

  /**
   * The effects of a run `r` over `plans`: one per record reached; every
   * record before the last, and the last too when nothing was thrown, threw
   * no error and has its whole effect; every effect announces its message.
   */
  predicate Follows(plans: seq<Plan>, r: Trace) {
    && |r.effects| <= |plans|
    && (r.thrown.None? ==> |r.effects| == |plans|)
    && (r.thrown.Some? ==> |r.effects| >= 1)
    && (forall i :: 0 <= i < |r.effects| ==> Announces(r.effects[i]))
    && (forall i :: 0 <= i < |r.effects| && (r.thrown.None? || i < |r.effects| - 1) ==>
          plans[i].error.None? && r.effects[i] == plans[i].effect)
  }

  /** A run that threw before the last plan follows the longer plans too. */
  lemma FollowsThrown(plans: seq<Plan>, init: seq<Plan>, r: Trace)
    requires 1 <= |plans| && init == plans[..|plans| - 1]
    requires Follows(init, r) && r.thrown.Some?
    ensures Follows(plans, r)
  {
    forall i | 0 <= i < |r.effects|
      ensures plans[i] == init[i]
    {
    }
  }

  /** A run that steps on its last plan follows the plans when the step keeps `Sound`'s promise. */
  lemma FollowsStep(plans: seq<Plan>, init: seq<Plan>, prev: Trace, st: Step, r: Trace)
    requires 1 <= |plans| && init == plans[..|plans| - 1]
    requires Follows(init, prev) && prev.thrown.None?
    requires Announces(st.effect)
    requires st.thrown.None? ==> plans[|plans| - 1].error.None? && st.effect == plans[|plans| - 1].effect
    requires r == Trace(st.thrown, prev.effects + [st.effect], prev.puts + st.effect.puts, prev.sends + st.effect.sends)
    ensures Follows(plans, r)
  {
    assert |r.effects| == |prev.effects| + 1;
    forall i | 0 <= i < |r.effects|
      ensures Announces(r.effects[i])
      ensures r.thrown.None? || i < |r.effects| - 1 ==> plans[i].error.None? && r.effects[i] == plans[i].effect
    {
      if i < |prev.effects| {
        assert r.effects[i] == prev.effects[i] && plans[i] == init[i];
      }
    }
  }

  /** A run with a sound stepper follows its plans. */
  lemma {:induction false} RunEffects(plans: seq<Plan>, step: Stepper, m0: nat, q0: nat)
    requires Announcing(plans) && Sound(step)
    ensures Follows(plans, Run(plans, step, m0, q0))
    decreases |plans|
  {
    if plans != [] {
      var init := plans[..|plans| - 1];
      var prev := Run(init, step, m0, q0);
      var r := Run(plans, step, m0, q0);
      InitAnnouncing(plans, |plans| - 1);
      RunEffects(init, step, m0, q0);
      if prev.thrown.Some? {
        assert r == prev;
        FollowsThrown(plans, init, r);
      } else {
        var plan := plans[|plans| - 1];
        var st := Stepped(step, plan, m0 + |prev.puts|, q0 + |prev.sends|);
        assert Announces(plan.effect);
        assert r == Trace(st.thrown, prev.effects + [st.effect], prev.puts + st.effect.puts, prev.sends + st.effect.sends);
        FollowsStep(plans, init, prev, st, r);
      }
    }
  }

  /**
   * A stepper that throws only its plan's error, or the table's answer to the
   * last put it made, or the queue's answer to the last send it made.
   */
  ghost predicate Blames(step: Stepper, rejectPut: (nat, IngestItem) -> Option<string>,
                   rejectSend: (nat, QueueMessage) -> Option<string>) {
    forall plan: Plan, m: nat, q: nat {:trigger Stepped(step, plan, m, q)} ::
      Announces(plan.effect) && Stepped(step, plan, m, q).thrown.Some? ==>
        var st := Stepped(step, plan, m, q);
        && (plan.error.Some? ==> st.thrown == plan.error)
        && (plan.error.None? ==>
              || (|st.effect.puts| >= 1 && st.thrown == PutAnswer(rejectPut, m + |st.effect.puts| - 1, st.effect.puts[|st.effect.puts| - 1]))
              || (|st.effect.sends| >= 1 && st.thrown == SendAnswer(rejectSend, q + |st.effect.sends| - 1, st.effect.sends[|st.effect.sends| - 1])))
  }

  /**
   * A run that threw at its last record: one whose key did not decode throws
   * that error; one that decoded throws the table's answer to the run's last
   * put or the queue's answer to its last send.
   */
  predicate Stopped(plans: seq<Plan>, rejectPut: (nat, IngestItem) -> Option<string>,
                    rejectSend: (nat, QueueMessage) -> Option<string>, m0: nat, q0: nat, r: Trace)
    requires 1 <= |r.effects| <= |plans|
  {
    var plan := plans[|r.effects| - 1];
    && (plan.error.Some? ==> r.thrown == plan.error)
    && (plan.error.None? ==>
          || (|r.puts| >= 1 && r.thrown == PutAnswer(rejectPut, m0 + |r.puts| - 1, r.puts[|r.puts| - 1]))
          || (|r.sends| >= 1 && r.thrown == SendAnswer(rejectSend, q0 + |r.sends| - 1, r.sends[|r.sends| - 1])))
  }

  /** A stopped run is stopped within any longer plans it starts. */
  lemma StoppedWithin(init: seq<Plan>, plans: seq<Plan>, rejectPut: (nat, IngestItem) -> Option<string>,
                      rejectSend: (nat, QueueMessage) -> Option<string>, m0: nat, q0: nat, r: Trace)
    requires |init| <= |plans| && init == plans[..|init|]
    requires 1 <= |r.effects| <= |init| && Stopped(init, rejectPut, rejectSend, m0, q0, r)
    ensures Stopped(plans, rejectPut, rejectSend, m0, q0, r)
  {
    assert plans[|r.effects| - 1] == init[|r.effects| - 1];
  }

  /** The last step of a run blamed as `Blames` says stops the run as `Stopped` says. */
  lemma LastStepStops(plans: seq<Plan>, step: Stepper, rejectPut: (nat, IngestItem) -> Option<string>,
                      rejectSend: (nat, QueueMessage) -> Option<string>, m0: nat, q0: nat,
                      prev: Trace, st: Step, r: Trace)
    requires Blames(step, rejectPut, rejectSend) && 1 <= |plans| && |prev.effects| == |plans| - 1
    requires Announces(plans[|plans| - 1].effect)
    requires st == Stepped(step, plans[|plans| - 1], m0 + |prev.puts|, q0 + |prev.sends|) && st.thrown.Some?
    requires r == Trace(st.thrown, prev.effects + [st.effect], prev.puts + st.effect.puts, prev.sends + st.effect.sends)
    ensures 1 <= |r.effects| <= |plans| && Stopped(plans, rejectPut, rejectSend, m0, q0, r)
  {
    var plan := plans[|plans| - 1];
    assert plans[|r.effects| - 1] == plan;
    if |st.effect.puts| >= 1 {
      assert r.puts[|r.puts| - 1] == st.effect.puts[|st.effect.puts| - 1];
    }
    if |st.effect.sends| >= 1 {
      assert r.sends[|r.sends| - 1] == st.effect.sends[|st.effect.sends| - 1];
    }
  }

  /** A run whose stepper blames as `Blames` says stops as `Stopped` says. */
  lemma {:induction false} RunStops(plans: seq<Plan>, step: Stepper, rejectPut: (nat, IngestItem) -> Option<string>,
                                    rejectSend: (nat, QueueMessage) -> Option<string>, m0: nat, q0: nat)
    requires Announcing(plans) && Blames(step, rejectPut, rejectSend)
    ensures var r := Run(plans, step, m0, q0);
      r.thrown.Some? ==> 1 <= |r.effects| <= |plans| && Stopped(plans, rejectPut, rejectSend, m0, q0, r)
    decreases |plans|
  {
    if plans != [] {
      var init := plans[..|plans| - 1];
      var prev := Run(init, step, m0, q0);
      var r := Run(plans, step, m0, q0);
      InitAnnouncing(plans, |plans| - 1);
      if prev.thrown.Some? {
        RunStops(init, step, rejectPut, rejectSend, m0, q0);
        StoppedWithin(init, plans, rejectPut, rejectSend, m0, q0, prev);
        assert r == prev;
        assert Stopped(plans, rejectPut, rejectSend, m0, q0, r);
      } else {
        RunLength(init, step, m0, q0);
        var st := Stepped(step, plans[|plans| - 1], m0 + |prev.puts|, q0 + |prev.sends|);
        if st.thrown.Some? {
          assert r == Trace(st.thrown, prev.effects + [st.effect], prev.puts + st.effect.puts, prev.sends + st.effect.sends);
          LastStepStops(plans, step, rejectPut, rejectSend, m0, q0, prev, st, r);
          assert Stopped(plans, rejectPut, rejectSend, m0, q0, r);
        }
      }
    }
  }

  /** A stepper for a table and a queue that accept every call: a plan throws its error, or makes all its calls. */
  ghost predicate Accepts(step: Stepper) {
    forall plan: Plan, m: nat, q: nat {:trigger Stepped(step, plan, m, q)} ::
      (plan.error.Some? ==> plan.effect == Effect([], [])) ==>
        Stepped(step, plan, m, q) == Step(plan.error, plan.effect)
  }

  /**
   * A run `r` over `plans` with nothing rejected: every record reached has
   * its plan's whole effect; every record before the last, and the last too
   * when nothing was thrown, had no error; a throw is the last record's
   * error.
   */
  predicate AcceptedAlong(plans: seq<Plan>, r: Trace) {
    && |r.effects| <= |plans|
    && (forall i :: 0 <= i < |r.effects| ==> r.effects[i] == plans[i].effect)
    && (forall i :: 0 <= i < |r.effects| && (r.thrown.None? || i < |r.effects| - 1) ==> plans[i].error.None?)
    && (r.thrown.None? ==> |r.effects| == |plans|)
    && (r.thrown.Some? ==> |r.effects| >= 1 && r.thrown == plans[|r.effects| - 1].error)
  }

  /** A run that threw before the last plan is accepted along the longer plans too. */
  lemma AcceptedThrown(plans: seq<Plan>, init: seq<Plan>, r: Trace)
    requires 1 <= |plans| && init == plans[..|plans| - 1]
    requires AcceptedAlong(init, r) && r.thrown.Some?
    ensures AcceptedAlong(plans, r)
  {
    forall i | 0 <= i < |r.effects|
      ensures plans[i] == init[i]
    {
    }
  }

  /** A run whose last plan steps as `Accepts` says is accepted along the plans. */
  lemma AcceptedStep(plans: seq<Plan>, init: seq<Plan>, prev: Trace, st: Step, r: Trace)
    requires 1 <= |plans| && init == plans[..|plans| - 1]
    requires AcceptedAlong(init, prev) && prev.thrown.None?
    requires st == Step(plans[|plans| - 1].error, plans[|plans| - 1].effect)
    requires r == Trace(st.thrown, prev.effects + [st.effect], prev.puts + st.effect.puts, prev.sends + st.effect.sends)
    ensures AcceptedAlong(plans, r)
  {
    forall i | 0 <= i < |r.effects|
      ensures r.effects[i] == plans[i].effect
      ensures r.thrown.None? || i < |r.effects| - 1 ==> plans[i].error.None?
    {
      if i < |prev.effects| {
        assert r.effects[i] == prev.effects[i] && plans[i] == init[i];
      }
    }
  }

  /**
   * With a stepper that accepts every call, only a plan's error throws: the
   * run is accepted along its plans.
   */
  lemma {:induction false} RunAccepted(plans: seq<Plan>, step: Stepper, m0: nat, q0: nat)
    requires Announcing(plans) && Accepts(step)
    ensures AcceptedAlong(plans, Run(plans, step, m0, q0))
    decreases |plans|
  {
    if plans != [] {
      var init := plans[..|plans| - 1];
      var prev := Run(init, step, m0, q0);
      InitAnnouncing(plans, |plans| - 1);
      RunAccepted(init, step, m0, q0);
      var r := Run(plans, step, m0, q0);
      if prev.thrown.Some? {
        assert r == prev;
        AcceptedThrown(plans, init, r);
      } else {
        var plan := plans[|plans| - 1];
        assert plan.error.Some? ==> plan.effect == Effect([], []);
        var st := Stepped(step, plan, m0 + |prev.puts|, q0 + |prev.sends|);
        assert st == Step(plan.error, plan.effect);
        assert r == Trace(st.thrown, prev.effects + [st.effect], prev.puts + st.effect.puts, prev.sends + st.effect.sends);
        AcceptedStep(plans, init, prev, st, r);
      }
    }
  }

  // ---------------------------------------------------------------------------
  // The handler's stepper
  // ---------------------------------------------------------------------------

  /** One record at the call counts `m` and `q`: its error, or its calls performed. */
  function StepOf(plan: Plan, rejectPut: (nat, IngestItem) -> Option<string>,
                  rejectSend: (nat, QueueMessage) -> Option<string>, m: nat, q: nat): Step
  {
    if plan.error.Some? then Step(plan.error, Effect([], []))
    else Perform(plan.effect, rejectPut, rejectSend, m, q)
  }

  /** The handler's stepper, for a table and a queue that answer as given. */
  function Performer(rejectPut: (nat, IngestItem) -> Option<string>,
                     rejectSend: (nat, QueueMessage) -> Option<string>): Stepper
  {
    (plan: Plan, m: nat, q: nat) => StepOf(plan, rejectPut, rejectSend, m, q)
  }

  lemma PerformerSound(rejectPut: (nat, IngestItem) -> Option<string>, rejectSend: (nat, QueueMessage) -> Option<string>)
    ensures Sound(Performer(rejectPut, rejectSend))
  {
    var step := Performer(rejectPut, rejectSend);
    forall plan: Plan, m: nat, q: nat | Announces(plan.effect)
      ensures Announces(Stepped(step, plan, m, q).effect)
      ensures Stepped(step, plan, m, q).thrown.None? ==> plan.error.None? && Stepped(step, plan, m, q).effect == plan.effect
    {
      PerformFacts(plan.effect, rejectPut, rejectSend, m, q);
    }
  }

  lemma PerformerBlames(rejectPut: (nat, IngestItem) -> Option<string>, rejectSend: (nat, QueueMessage) -> Option<string>)
    ensures Blames(Performer(rejectPut, rejectSend), rejectPut, rejectSend)
  {
    var step := Performer(rejectPut, rejectSend);
    forall plan: Plan, m: nat, q: nat | Announces(plan.effect) && Stepped(step, plan, m, q).thrown.Some?
      ensures var st := Stepped(step, plan, m, q);
        && (plan.error.Some? ==> st.thrown == plan.error)
        && (plan.error.None? ==>
              || (|st.effect.puts| >= 1 && st.thrown == PutAnswer(rejectPut, m + |st.effect.puts| - 1, st.effect.puts[|st.effect.puts| - 1]))
              || (|st.effect.sends| >= 1 && st.thrown == SendAnswer(rejectSend, q + |st.effect.sends| - 1, st.effect.sends[|st.effect.sends| - 1])))
    {
      PerformFacts(plan.effect, rejectPut, rejectSend, m, q);
    }
  }

  lemma PerformerAccepts(rejectPut: (nat, IngestItem) -> Option<string>, rejectSend: (nat, QueueMessage) -> Option<string>)
    requires forall i: nat, item: IngestItem :: PutAnswer(rejectPut, i, item).None?
    requires forall i: nat, message: QueueMessage :: SendAnswer(rejectSend, i, message).None?
    ensures Accepts(Performer(rejectPut, rejectSend))
  {
  }

  // ---------------------------------------------------------------------------
  // The table, the queue and the handler
  // ---------------------------------------------------------------------------

  /**
   * The invoice table. Every `putItem` call is appended to `puts`; `reject`
   * says whether the service rejects the n-th call, and with which error.
   */
  class IngestTable {
    var puts: seq<IngestItem>
    const reject: (nat, IngestItem) -> Option<string>

    constructor (reject: (nat, IngestItem) -> Option<string>)
      ensures puts == [] && this.reject == reject
    {
      puts := [];
      this.reject := reject;
    }

    method PutItem(item: IngestItem) returns (err: Option<string>)
      modifies this
      ensures puts == old(puts) + [item]
      ensures err == reject(|old(puts)|, item)
    {
      err := reject(|puts|, item);
      puts := puts + [item];
    }
  }

  /**
   * The extraction queue. Every `SendMessageCommand` is appended to `sends`;
   * `reject` says whether the service rejects the n-th call, and with which
   * error.
   */
  class ExtractionQueue {
    var sends: seq<QueueMessage>
    const reject: (nat, QueueMessage) -> Option<string>

    constructor (reject: (nat, QueueMessage) -> Option<string>)
      ensures sends == [] && this.reject == reject
    {
      sends := [];
      this.reject := reject;
    }

    method Send(message: QueueMessage) returns (err: Option<string>)
      modifies this
      ensures sends == old(sends) + [message]
      ensures err == reject(|old(sends)|, message)
    {
      err := reject(|sends|, message);
      sends := sends + [message];
    }
  }

  /** The body of the loop for one decoded key; a rejected put or send throws out of the handler. */
  method ProcessRecord(table: IngestTable, queue: ExtractionQueue, key: string, size: real, clock: Clock, maxBytes: JsNumber)
    returns (thrown: Option<string>)
    modifies table, queue
    ensures var st := Perform(RecordEffect(key, size, clock, maxBytes), table.reject, queue.reject,
                              |old(table.puts)|, |old(queue.sends)|);
      && thrown == st.thrown
      && table.puts == old(table.puts) + st.effect.puts
      && queue.sends == old(queue.sends) + st.effect.sends
  {
    if !StartsWith(key, Prefix) {
      return None;
    }
    var item := ItemFor(key, size, clock);
    if Exceeds(size, maxBytes) {
      thrown := table.PutItem(item.(status := Failed, updatedAt := Some(clock.updatedAt), errors := [TooLargeError]));
      return;
    }
    thrown := table.PutItem(item);
    if thrown.Some? {
      return;
    }
    thrown := queue.Send(MessageFor(item));
  }

  /**
   * The loop body for the `i`-th record, whose plan is `plan`: a key that
   * does not decode throws its `URIError`.
   */
  method ProcessAt(table: IngestTable, queue: ExtractionQueue, records: seq<S3Record>, i: nat, env: Env, ghost plan: Plan)
    returns (thrown: Option<string>)
    requires i < |records| && plan == PlansOf(records, env)[i]
    modifies table, queue
    ensures var st := Stepped(Performer(table.reject, queue.reject), plan, |old(table.puts)|, |old(queue.sends)|);
      && thrown == st.thrown
      && table.puts == old(table.puts) + st.effect.puts
      && queue.sends == old(queue.sends) + st.effect.sends
  {
    PlanOfRecord(records, env, |records|, i);
    var key := KeyOf(records[i], env.decode);
    if key.Err? {
      return Some(key.message);
    }
    thrown := ProcessRecord(table, queue, key.value, records[i].size.GetOr(0.0), env.clock(i), env.maxBytes);
  }

  /** The index of the first record whose key does not decode, or `|records|` when all do. */
  function FirstUndecodable(records: seq<S3Record>, decode: string -> Result<string>): (k: nat)
    ensures k <= |records|
    ensures forall j :: 0 <= j < k ==> KeyOf(records[j], decode).Ok?
    ensures k < |records| ==> KeyOf(records[k], decode).Err?
  {
    if records == [] || KeyOf(records[0], decode).Err? then 0
    else 1 + FirstUndecodable(records[1..], decode)
  }

  /**
   * `handler`: the records in order. A key that does not decode, a rejected
   * put or a rejected send throws out of the handler, leaving the later
   * records unprocessed.
   */
  method Handler(table: IngestTable, queue: ExtractionQueue, records: seq<S3Record>, env: Env)
    returns (thrown: Option<string>)
    modifies table, queue
    ensures var r := Run(PlansOf(records, env), Performer(table.reject, queue.reject), |old(table.puts)|, |old(queue.sends)|);
      && thrown == r.thrown
      && table.puts == old(table.puts) + r.puts
      && queue.sends == old(queue.sends) + r.sends
  {
    ghost var puts0, sends0 := table.puts, queue.sends;
    ghost var m0, q0 := |puts0|, |sends0|;
    ghost var plans := PlansOf(records, env);
    ghost var trace := Trace(None, [], [], []);
    assert plans[..0] == [];
    ghost var step := Performer(table.reject, queue.reject);
    for i := 0 to |records|
      invariant trace == Run(plans[..i], step, m0, q0) && trace.thrown.None?
      invariant table.puts == puts0 + trace.puts
      invariant queue.sends == sends0 + trace.sends
    {
      ghost var prev := trace;
      ghost var puts1, sends1 := table.puts, queue.sends;
      thrown := ProcessAt(table, queue, records, i, env, plans[i]);
      ghost var st := Stepped(step, plans[i], |puts1|, |sends1|);
      assert thrown == st.thrown && table.puts == puts1 + st.effect.puts && queue.sends == sends1 + st.effect.sends;
      Advance(plans, step, m0, q0, i, prev, st);
      Associative(puts0, prev.puts, st.effect.puts);
      Associative(sends0, prev.sends, st.effect.sends);
      trace := Trace(st.thrown, prev.effects + [st.effect], prev.puts + st.effect.puts, prev.sends + st.effect.sends);
      if thrown.Some? {
        ThrowEndsRun(plans, step, m0, q0, i + 1);
        return;
      }
    }
    assert plans[..|records|] == plans;
    thrown := None;
  }

  /**
   * What the handler leaves behind, whatever the services answer: no more
   * messages than items and no more items than records, and every message
   * announcing a PENDING item stored with it.
   */
  lemma HandlerAnnounces(records: seq<S3Record>, env: Env,
                         rejectPut: (nat, IngestItem) -> Option<string>, rejectSend: (nat, QueueMessage) -> Option<string>,
                         m0: nat, q0: nat)
    ensures var r := Run(PlansOf(records, env), Performer(rejectPut, rejectSend), m0, q0);
      && |r.sends| <= |r.puts| <= |records|
      && (forall m :: m in r.sends ==> exists item :: item in r.puts && item.status == Pending && MessageFor(item) == m)
  {
    var plans := PlansOf(records, env);
    var r := Run(plans, Performer(rejectPut, rejectSend), m0, q0);
    PlansAnnounce(records, env);
    PerformerSound(rejectPut, rejectSend);
    RunEffects(plans, Performer(rejectPut, rejectSend), m0, q0);
    RunTallies(plans, Performer(rejectPut, rejectSend), m0, q0);
    SendsAtMostPuts(r.effects);
    SendsFollowPendingPuts(r.effects);
  }

  /**
   * Where the handler stops, whatever the services answer: every record
   * before the last one reached decoded and has its whole effect; when
   * nothing is thrown that holds of every record; a throw is the `URIError`
   * of the last record reached, or the table's answer to the last put, or
   * the queue's answer to the last send.
   */
  lemma HandlerStops(records: seq<S3Record>, env: Env,
                     rejectPut: (nat, IngestItem) -> Option<string>, rejectSend: (nat, QueueMessage) -> Option<string>,
                     m0: nat, q0: nat)
    ensures var r := Run(PlansOf(records, env), Performer(rejectPut, rejectSend), m0, q0);
      && |r.effects| <= |records|
      && (forall i :: 0 <= i < |r.effects| && (r.thrown.None? || i < |r.effects| - 1) ==>
            KeyOf(records[i], env.decode).Ok? && r.effects[i] == EffectAt(records, i, env))
      && (r.thrown.None? ==> |r.effects| == |records|)
      && (r.thrown.Some? ==> 1 <= |r.effects| && Stopped(PlansOf(records, env), rejectPut, rejectSend, m0, q0, r))
  {
    var plans := PlansOf(records, env);
    PlansAnnounce(records, env);
    PerformerSound(rejectPut, rejectSend);
    PerformerBlames(rejectPut, rejectSend);
    var r := Run(plans, Performer(rejectPut, rejectSend), m0, q0);
    RunEffects(plans, Performer(rejectPut, rejectSend), m0, q0);
    RunStops(plans, Performer(rejectPut, rejectSend), rejectPut, rejectSend, m0, q0);
    forall i | 0 <= i < |r.effects| && (r.thrown.None? || i < |r.effects| - 1)
      ensures KeyOf(records[i], env.decode).Ok? && r.effects[i] == EffectAt(records, i, env)
    {
      PlanFacts(records, env, i);
    }
  }

  /**
   * With a table and a queue that accept every call, the handler is the
   * model without failures: it stops at the first record whose key does not
   * decode, throwing its error, and every record up to it has its whole
   * effect.
   */
  lemma HandlerAccepted(records: seq<S3Record>, env: Env,
                        rejectPut: (nat, IngestItem) -> Option<string>, rejectSend: (nat, QueueMessage) -> Option<string>,
                        m0: nat, q0: nat)
    requires forall i: nat, item: IngestItem :: PutAnswer(rejectPut, i, item).None?
    requires forall i: nat, message: QueueMessage :: SendAnswer(rejectSend, i, message).None?
    ensures var r := Run(PlansOf(records, env), Performer(rejectPut, rejectSend), m0, q0);
      var k := FirstUndecodable(records, env.decode);
      && r.thrown == (if k < |records| then Some(KeyOf(records[k], env.decode).message) else None)
      && |r.effects| == (if k < |records| then k + 1 else |records|)
      && (forall i :: 0 <= i < |r.effects| ==> r.effects[i] == EffectAt(records, i, env))
  {
    var plans := PlansOf(records, env);
    var r := Run(plans, Performer(rejectPut, rejectSend), m0, q0);
    PlansAnnounce(records, env);
    PerformerAccepts(rejectPut, rejectSend);
    RunAccepted(plans, Performer(rejectPut, rejectSend), m0, q0);
    var k := FirstUndecodable(records, env.decode);
    forall i | 0 <= i < |r.effects|
      ensures r.effects[i] == EffectAt(records, i, env)
    {
      PlanFacts(records, env, i);
    }
    if r.thrown.Some? {
      var last := |r.effects| - 1;
      PlanFacts(records, env, last);
      forall i | 0 <= i < last
        ensures KeyOf(records[i], env.decode).Ok?
      {
        PlanFacts(records, env, i);
      }
      UndecodableIsFirst(records, env.decode, last);
    } else {
      forall i | 0 <= i < |records|
        ensures KeyOf(records[i], env.decode).Ok?
      {
        PlanFacts(records, env, i);
      }
      AllDecode(records, env.decode);
    }
  }

  /** A record that does not decode, with every earlier one decoding, is the first failure. */
  lemma UndecodableIsFirst(records: seq<S3Record>, decode: string -> Result<string>, i: nat)
    requires i < |records| && KeyOf(records[i], decode).Err?
    requires forall j :: 0 <= j < i ==> KeyOf(records[j], decode).Ok?
    ensures FirstUndecodable(records, decode) == i
  {
  }

  /** When every key decodes, there is no first failure. */
  lemma AllDecode(records: seq<S3Record>, decode: string -> Result<string>)
    requires forall j :: 0 <= j < |records| ==> KeyOf(records[j], decode).Ok?
    ensures FirstUndecodable(records, decode) == |records|
  {
  }
}
