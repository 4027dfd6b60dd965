/**
 * `parseEmail` of backend/src/shared/email.ts after `simpleParser` has run:
 * which attachments are kept, and the defaults of the header fields. The
 * parser's output is the input here; the clock is a parameter.
 */
module Email {
  import opened Wrappers
  import opened Strings

  /** The attachment fields the filter reads; absent optional fields are `None`. */
  datatype Attachment = Attachment(
    contentDisposition: Option<string>, contentId: Option<string>,
    contentType: Option<string>, filename: Option<string>, content: seq<bv8>)

  /** What `simpleParser` returns; `from` is `parsed.from?.text`. */
  datatype ParsedMail = ParsedMail(
    messageId: Option<string>, from: Option<string>, subject: Option<string>,
    date: Option<string>, attachments: Option<seq<Attachment>>)

  datatype ParsedEmail = ParsedEmail(
    messageId: string, from: string, subject: string, date: string, attachments: seq<Attachment>)

  /** The lower-cased disposition contains "inline". */
  predicate IsInline(a: Attachment) {
    Contains(Lower(a.contentDisposition.GetOr("")), "inline")
  }

  /** A truthy `contentId`: the part is referenced from the body. */
  predicate HasContentId(a: Attachment) {
    a.contentId.Some? && a.contentId.value != ""
  }

  /** An image whose lower-cased file name contains "logo". */
  predicate IsLogo(a: Attachment) {
    && a.contentType.Some? && StartsWith(a.contentType.value, "image/")
    && a.filename.Some? && Contains(Lower(a.filename.value), "logo")
  }

  /** The filter callback: the three tests run in order and any one drops the part. */
  predicate Keep(a: Attachment) {
    if IsInline(a) then false
    else if HasContentId(a) then false
    else if IsLogo(a) then false
    else true
  }

  /** A part is kept exactly when it passes all three tests. */
  lemma KeepIff(a: Attachment)
    ensures Keep(a) <==> !IsInline(a) && !HasContentId(a) && !IsLogo(a)
  {
  }

  /** A file named like a logo that is not an image is kept, unless another test drops it. */
  lemma NonImageLogoKept(a: Attachment)
    requires a.contentType.Some? && !StartsWith(a.contentType.value, "image/")
    requires !IsInline(a) && !HasContentId(a)
    ensures Keep(a)
  {
  }

  /** `(parsed.attachments || []).filter(...)` */
  function KeptAttachments(xs: seq<Attachment>): (r: seq<Attachment>)
    ensures |r| <= |xs|
    ensures forall a :: a in r ==> a in xs && Keep(a)
    ensures forall a :: a in xs && Keep(a) ==> a in r
  {
    if xs == [] then []
    else (if Keep(xs[0]) then [xs[0]] else []) + KeptAttachments(xs[1..])
  }

  /** Filtering works part by part and keeps the order, so the kept parts are a subsequence of the parsed ones. */
  lemma {:induction false} KeptAppend(xs: seq<Attachment>, ys: seq<Attachment>)
    ensures KeptAttachments(xs + ys) == KeptAttachments(xs) + KeptAttachments(ys)
    decreases |xs|
  {
    if xs == [] {
      assert xs + ys == ys;
    } else {
      assert (xs + ys)[0] == xs[0];
      assert (xs + ys)[1..] == xs[1..] + ys;
      KeptAppend(xs[1..], ys);
    }
  }

  /** One part is kept alone or not at all. */
  lemma KeptSingle(a: Attachment)
    ensures KeptAttachments([a]) == if Keep(a) then [a] else []
  {
    assert [a][1..] == [];
  }

  /** Each part is kept at most as often as it occurs. */
  lemma {:induction false} KeptSubMultiset(xs: seq<Attachment>)
    ensures multiset(KeptAttachments(xs)) <= multiset(xs)
  {
    if xs != [] {
      KeptSubMultiset(xs[1..]);
      assert xs == [xs[0]] + xs[1..];
    }
  }

  /**
   * The returned record: a message id that is `undefined` becomes the decimal
   * `Date.now()` (an empty id is kept), `from` and `subject` default to "", and
   * a missing date becomes the current time.
   */
  function ParseEmail(parsed: ParsedMail, nowMillis: nat, nowIso: string): ParsedEmail {
    var messageId := if parsed.messageId.Some? then parsed.messageId.value else NatToString(nowMillis);
    ParsedEmail(
      messageId,
      parsed.from.GetOr(""),
      parsed.subject.GetOr(""),
      if parsed.date.Some? then parsed.date.value else nowIso,
      KeptAttachments(parsed.attachments.GetOr([])))
  }

  lemma EmailDefaults(parsed: ParsedMail, nowMillis: nat, nowIso: string)
    ensures var e := ParseEmail(parsed, nowMillis, nowIso);
      && (parsed.messageId.Some? ==> e.messageId == parsed.messageId.value)
      && (parsed.messageId.None? ==> e.messageId == NatToString(nowMillis) && DigitsValue(e.messageId) == nowMillis)
      && (parsed.from.None? ==> e.from == "") && (parsed.from.Some? ==> e.from == parsed.from.value)
      && (parsed.subject.None? ==> e.subject == "") && (parsed.subject.Some? ==> e.subject == parsed.subject.value)
      && (parsed.date.None? ==> e.date == nowIso)
      && (parsed.attachments.None? ==> e.attachments == [])
      && (parsed.attachments.Some? ==> e.attachments == KeptAttachments(parsed.attachments.value))
  {
  }
}
