/**
 * `reconcileExtraction` of backend/src/extract.ts: tag proforma invoices as
 * `Prepayment` and clean the purchase-order number, updating the record in
 * place and appending a warning token for each change.
 *
 * The step runs on the output of `normalizeExtraction`, which always holds
 * an object with an `invoice` object, so the source's early return for a
 * non-object and its `extracted.invoice ?? {}` never take effect.
 */
module Reconcile {
  import opened Wrappers
  import opened Strings
  import opened Json
  import opened Invoice
  import opened PurchaseOrder

  const Prepayment := "Pre" + "payment"
  const TaggedPrepayment := "tagged_prepayment_from_proforma"
  const SanitizedPurchaseOrder := "sanitized_purchase_order_number"

  /** `t` starts with `w` when letters are compared without case. */
  predicate FoldedPrefix(t: string, w: string) {
    |w| <= |t| && Lower(t[..|w|]) == w
  }

  /** `pro\s*forma` at the head of `t`, compared without case. */
  predicate ProformaHere(t: string) {
    FoldedPrefix(t, "pro") && FoldedPrefix(TrimStart(t[3..]), "forma")
  }

  /**
   * `/pro\s*forma|proforma/i.test(t)`: the pattern occurs somewhere in `t`.
   * The second alternative is the first one with an empty `\s*`.
   */
  predicate LooksProforma(t: string)
    decreases |t|
  {
    ProformaHere(t) || (|t| > 0 && LooksProforma(t[1..]))
  }

  /** A match at any offset is found. */
  lemma {:induction false} ProformaAt(t: string, i: nat)
    requires i <= |t| && ProformaHere(t[i..])
    ensures LooksProforma(t)
    decreases i
  {
    if i > 0 {
      assert t[1..][i - 1..] == t[i..];
      ProformaAt(t[1..], i - 1);
    } else {
      assert t[0..] == t;
    }
  }

  /** `pro`, any white space, `forma`, in any case and anywhere in the text, is found. */
  lemma ProformaFound(x: string, p: string, blanks: string, f: string, rest: string)
    requires Lower(p) == "pro" && Lower(f) == "forma"
    requires forall i :: 0 <= i < |blanks| ==> IsSpace(blanks[i])
    ensures LooksProforma(x + (p + (blanks + (f + rest))))
  {
    var u := p + (blanks + (f + rest));
    assert (x + u)[|x|..] == u;
    ProformaHereAt(p, blanks, f, rest);
    ProformaAt(x + u, |x|);
  }

  lemma ProformaHereAt(p: string, blanks: string, f: string, rest: string)
    requires Lower(p) == "pro" && Lower(f) == "forma"
    requires forall i :: 0 <= i < |blanks| ==> IsSpace(blanks[i])
    ensures ProformaHere(p + (blanks + (f + rest)))
  {
    var v := blanks + (f + rest);
    LowerAt(f);
    FoldedPrefixOf("pro", p, v);
    assert (p + v)[3..] == v;
    assert LowerChar(f[0]) == 'f' && (f + rest)[0] == f[0];
    TrimStartPad(blanks, f + rest);
    FoldedPrefixOf("forma", f, rest);
  }

  /** A text that lower-cases to `w`, followed by anything, starts with `w` without case. */
  lemma FoldedPrefixOf(w: string, x: string, rest: string)
    requires Lower(x) == w
    ensures FoldedPrefix(x + rest, w)
  {
    assert (x + rest)[..|w|] == x;
  }

  /** No match without a letter `f`: every occurrence spells out `forma`. */
  lemma {:induction false} ProformaNeedsF(t: string)
    requires forall i :: 0 <= i < |t| ==> LowerChar(t[i]) != 'f'
    ensures !LooksProforma(t)
    decreases |t|
  {
    if |t| >= 3 {
      var u := TrimStart(t[3..]);
      TrimStartSuffix(t[3..]);
      if |u| >= 5 {
        LowerAt(u[..5]);
        assert Lower(u[..5])[0] == LowerChar(t[|t| - |u|]);
      }
    }
    if |t| > 0 {
      ProformaNeedsF(t[1..]);
    }
  }

  /** `Prepayment` does not look proforma, so a tagged value is left alone by a second pass. */
  lemma PrepaymentNotProforma()
    ensures !LooksProforma(Trim(Prepayment))
  {
    var p := Prepayment;
    assert !IsSpace(p[0]) && !IsSpace(p[|p| - 1]);
    TrimOfTrimmed(p);
    forall i | 0 <= i < |p| ensures LowerChar(p[i]) != 'f' {
    }
    ProformaNeedsF(p);
  }

  /**
   * The proforma step on `invoiceType`: the new value and the tokens logged.
   * A proforma type becomes `Prepayment` with one token; the source's
   * `!== "Prepayment"` test never fails there, because `Prepayment` itself
   * does not look proforma.
   */
  function TagProforma(t: Value): (r: (Value, seq<string>))
    ensures LooksProforma(Trim(TextOf(t))) ==> r == (Str(Prepayment), [TaggedPrepayment])
    ensures !LooksProforma(Trim(TextOf(t))) ==> r == (t, [])
  {
    if LooksProforma(Trim(TextOf(t))) then
      ProformaNotPrepayment(t);
      if t != Str(Prepayment) then (Str(Prepayment), [TaggedPrepayment]) else (t, [])
    else (t, [])
  }

  lemma ProformaNotPrepayment(t: Value)
    requires LooksProforma(Trim(TextOf(t)))
    ensures t != Str(Prepayment)
  {
    if t == Str(Prepayment) {
      PrepaymentNotProforma();
    }
  }

  /** Tagging twice is tagging once. */
  lemma TagProformaIdempotent(t: Value)
    ensures TagProforma(TagProforma(t).0) == (TagProforma(t).0, [])
  {
    if LooksProforma(Trim(TextOf(t))) {
      PrepaymentNotProforma();
    }
  }

  /**
   * The purchase-order step: the text form `poRaw` of the value, trimmed,
   * decides. Empty or `"null"` and unsanitisable values become `null`; a
   * sanitised value that differs from `poRaw` replaces it with one token;
   * otherwise the original value stays, whatever its type and padding.
   */
  function CleanPurchaseOrder(v: Value): (r: (Value, seq<string>))
  {
    var poRaw := Trim(TextOf(v));
    if poRaw != "" && poRaw != "null" then
      match Sanitize(poRaw)
      case Some(cleaned) => if cleaned != poRaw then (Str(cleaned), [SanitizedPurchaseOrder]) else (v, [])
      case None => (Null, [])
    else (Null, [])
  }

  /** The header after both steps. */
  function ReconciledHeader(h: Header): (r: Header)
    ensures r == h.(invoiceType := r.invoiceType, purchaseOrderNumber := r.purchaseOrderNumber)
  {
    h.(invoiceType := TagProforma(h.invoiceType).0,
       purchaseOrderNumber := CleanPurchaseOrder(h.purchaseOrderNumber).0)
  }

  /** The tokens appended, in the order the steps run. */
  function ReconcileTokens(h: Header): seq<string> {
    TagProforma(h.invoiceType).1 + CleanPurchaseOrder(h.purchaseOrderNumber).1
  }

  /** At most one token per step, and only the two known ones. */
  lemma ReconcileTokensKnown(h: Header)
    ensures |ReconcileTokens(h)| <= 2
    ensures forall i :: 0 <= i < |ReconcileTokens(h)| ==>
              ReconcileTokens(h)[i] == TaggedPrepayment || ReconcileTokens(h)[i] == SanitizedPurchaseOrder
  {
    TagProformaTokens(h.invoiceType);
    CleanPurchaseOrderTokens(h.purchaseOrderNumber);
    TokenPair(TagProforma(h.invoiceType).1, CleanPurchaseOrder(h.purchaseOrderNumber).1,
              TaggedPrepayment, SanitizedPurchaseOrder);
  }

  lemma TokenPair(a: seq<string>, b: seq<string>, t: string, u: string)
    requires a == [] || a == [t]
    requires b == [] || b == [u]
    ensures |a + b| <= 2 && forall i :: 0 <= i < |a + b| ==> (a + b)[i] == t || (a + b)[i] == u
  {
  }

  lemma TagProformaTokens(t: Value)
    ensures TagProforma(t).1 == [] || TagProforma(t).1 == [TaggedPrepayment]
  {
  }

  lemma CleanPurchaseOrderTokens(v: Value)
    ensures CleanPurchaseOrder(v).1 == [] || CleanPurchaseOrder(v).1 == [SanitizedPurchaseOrder]
  {
  }

  /**
   * `reconcileExtraction(extracted, warnings)`: the proforma step, then the
   * purchase-order step. Each step first reads its field as
   * `String(field ?? "")`, which throws `ConversionError` on a value that does
   * not convert; the steps run before the throw keep their effect.
   */
  method Reconcile(rec: InvoiceRecord, warnings: WarningLog) returns (thrown: Option<string>)
    modifies rec, warnings
    ensures thrown.Some? <==>
      !TextConvertible(old(rec.invoice).invoiceType) || !TextConvertible(old(rec.invoice).purchaseOrderNumber)
    ensures thrown.Some? ==> thrown.value == ConversionError
    ensures !TextConvertible(old(rec.invoice).invoiceType) ==>
      rec.invoice == old(rec.invoice) && warnings.tokens == old(warnings.tokens)
    ensures TextConvertible(old(rec.invoice).invoiceType) && !TextConvertible(old(rec.invoice).purchaseOrderNumber) ==>
      && rec.invoice == old(rec.invoice).(invoiceType := TagProforma(old(rec.invoice).invoiceType).0)
      && warnings.tokens == old(warnings.tokens) + TagProforma(old(rec.invoice).invoiceType).1
    ensures thrown.None? ==>
      rec.invoice == ReconciledHeader(old(rec.invoice)) && warnings.tokens == old(warnings.tokens) + ReconcileTokens(old(rec.invoice))
    ensures rec.vendor == old(rec.vendor) && rec.lineItems == old(rec.lineItems) && rec.meta == old(rec.meta)
  {
    if !TextConvertible(rec.invoice.invoiceType) {
      return Some(ConversionError);
    }
    ghost var h := rec.invoice;
    ghost var w := warnings.tokens;
    TagProformaStep(rec, warnings);
    if !TextConvertible(rec.invoice.purchaseOrderNumber) {
      return Some(ConversionError);
    }
    CleanPurchaseOrderStep(rec, warnings);
    AppendAssoc(w, TagProforma(h.invoiceType).1, CleanPurchaseOrder(h.purchaseOrderNumber).1);
    thrown := None;
  }

  lemma AppendAssoc(a: seq<string>, b: seq<string>, c: seq<string>)
    ensures a + b + c == a + (b + c)
  {
  }

  method TagProformaStep(rec: InvoiceRecord, warnings: WarningLog)
    modifies rec, warnings
    ensures rec.invoice == old(rec.invoice).(invoiceType := TagProforma(old(rec.invoice).invoiceType).0)
    ensures rec.vendor == old(rec.vendor) && rec.lineItems == old(rec.lineItems) && rec.meta == old(rec.meta)
    ensures warnings.tokens == old(warnings.tokens) + TagProforma(old(rec.invoice).invoiceType).1
  {
    var currentType := Trim(TextOf(rec.invoice.invoiceType));
    if LooksProforma(currentType) {
      if rec.invoice.invoiceType != Str(Prepayment) {
        rec.invoice := rec.invoice.(invoiceType := Str(Prepayment));
        warnings.Push(TaggedPrepayment);
      }
    }
  }

  method CleanPurchaseOrderStep(rec: InvoiceRecord, warnings: WarningLog)
    modifies rec, warnings
    ensures rec.invoice == old(rec.invoice).(purchaseOrderNumber := CleanPurchaseOrder(old(rec.invoice).purchaseOrderNumber).0)
    ensures rec.vendor == old(rec.vendor) && rec.lineItems == old(rec.lineItems) && rec.meta == old(rec.meta)
    ensures warnings.tokens == old(warnings.tokens) + CleanPurchaseOrder(old(rec.invoice).purchaseOrderNumber).1
  {
    var po := rec.invoice.purchaseOrderNumber;
    ghost var t0 := warnings.tokens;
    var stored, logged := CleanedPurchaseOrder(po);
    ghost var added: seq<string> := if logged then [SanitizedPurchaseOrder] else [];
    assert CleanPurchaseOrder(po).1 == added;
    if stored != po {
      rec.invoice := rec.invoice.(purchaseOrderNumber := stored);
    }
    if logged {
      warnings.Push(SanitizedPurchaseOrder);
    } else {
      assert t0 + added == t0;
    }
    assert warnings.tokens == t0 + added;
  }

  /**
   * The decision of the purchase-order step: the value to store and whether
   * the change is logged. A sanitised value equal to the trimmed text leaves
   * the field as it was.
   */
  method CleanedPurchaseOrder(po: Value) returns (stored: Value, logged: bool)
    ensures CleanPurchaseOrder(po) == (stored, if logged then [SanitizedPurchaseOrder] else [])
  {
    var poRaw := Trim(TextOf(po));
    stored, logged := po, false;
    if poRaw != "" && poRaw != "null" {
      var cleaned := Sanitize(poRaw);
      if cleaned.Some? && cleaned.value != poRaw {
        PoReplaced(po, cleaned.value);
        stored, logged := Str(cleaned.value), true;
      } else if cleaned.None? {
        PoRejected(po);
        stored := Null;
      } else {
        PoUnchanged(po);
      }
    } else {
      PoEmptyOrNull(po);
      stored := Null;
    }
  }

  /** Missing, empty and `"null"` purchase-order numbers are stored as `null` without a token. */
  lemma PoEmptyOrNull(v: Value)
    requires Trim(TextOf(v)) == "" || Trim(TextOf(v)) == "null"
    ensures CleanPurchaseOrder(v) == (Null, [])
  {
  }

  /** A value the sanitiser rejects is stored as `null` without a token. */
  lemma PoRejected(v: Value)
    requires Trim(TextOf(v)) != "" && Trim(TextOf(v)) != "null"
    requires Sanitize(Trim(TextOf(v))) == None
    ensures CleanPurchaseOrder(v) == (Null, [])
  {
  }

  /** A sanitised value that differs from the trimmed text replaces it and is logged once. */
  lemma PoReplaced(v: Value, cleaned: string)
    requires Trim(TextOf(v)) != "" && Trim(TextOf(v)) != "null"
    requires Sanitize(Trim(TextOf(v))) == Some(cleaned) && cleaned != Trim(TextOf(v))
    ensures CleanPurchaseOrder(v) == (Str(cleaned), [SanitizedPurchaseOrder])
  {
  }

  /**
   * Every value the step stores is `null`, the original value, or a clean
   * code (code characters only, a digit, at least three characters); a token
   * is logged exactly when it stores a new string.
   */
  lemma PoOutcomes(v: Value)
    ensures PoOutcome(v, CleanPurchaseOrder(v))
  {
    var poRaw := Trim(TextOf(v));
    if poRaw == "" || poRaw == "null" {
      PoEmptyOrNull(v);
    } else {
      match Sanitize(poRaw)
      case None => PoRejected(v);
      case Some(cleaned) =>
        SanitizedIsClean(poRaw);
        if cleaned != poRaw {
          PoReplaced(v, cleaned);
        } else {
          PoUnchanged(v);
        }
    }
  }

  /** A sanitised value equal to the trimmed text leaves the stored value as it is. */
  lemma PoUnchanged(v: Value)
    requires Trim(TextOf(v)) != "" && Trim(TextOf(v)) != "null"
    requires Sanitize(Trim(TextOf(v))) == Some(Trim(TextOf(v)))
    ensures CleanPurchaseOrder(v) == (v, [])
  {
  }

  predicate PoOutcome(v: Value, r: (Value, seq<string>)) {
    || r == (Null, [])
    || r == (v, [])
    || (r.0.Str? && r.1 == [SanitizedPurchaseOrder] && IsCleanCode(r.0.s))
  }

  /** Code characters only, a digit, at least three characters. */
  predicate IsCleanCode(s: string) {
    HasDigit(s) && |s| >= 3 && forall i :: 0 <= i < |s| ==> IsCodeChar(s[i])
  }

  lemma SanitizedIsClean(s: string)
    requires Sanitize(s).Some?
    ensures IsCleanCode(Sanitize(s).value)
  {
  }

  /**
   * A clean code with surrounding blanks is left as it is: the stored value
   * keeps its padding, because only the trimmed text is compared.
   */
  lemma PaddedCodeKept(pad: string, code: string)
    requires |pad| > 0 && forall i :: 0 <= i < |pad| ==> IsSpace(pad[i])
    requires |code| >= 3 && IsDigit(code[0]) && forall i :: 0 <= i < |code| ==> IsCodeChar(code[i])
    ensures CleanPurchaseOrder(Str(pad + code + pad)) == (Str(pad + code + pad), [])
  {
    TrimPadded(pad, code);
    CleanCodeKept(code);
    assert code != "null" by {
      assert IsDigit(code[0]);
    }
    PoUnchangedStr(pad + code + pad, code);
  }

  lemma PoUnchangedStr(s: string, code: string)
    requires Trim(s) == code && code != "" && code != "null"
    requires Sanitize(code) == Some(code)
    ensures CleanPurchaseOrder(Str(s)) == (Str(s), [])
  {
    TrimTextOfStr(s, code);
    PoUnchangedTrimmed(s, code);
  }

  lemma TrimTextOfStr(s: string, code: string)
    requires Trim(s) == code
    ensures Trim(TextOf(Str(s))) == code
  {
    TextOfStr(s);
  }

  lemma PoUnchangedTrimmed(s: string, code: string)
    requires Trim(TextOf(Str(s))) == code && code != "" && code != "null"
    requires Sanitize(code) == Some(code)
    ensures CleanPurchaseOrder(Str(s)) == (Str(s), [])
  {
  }

  lemma TrimPadded(pad: string, code: string)
    requires forall i :: 0 <= i < |pad| ==> IsSpace(pad[i])
    requires |code| > 0 && !IsSpace(code[0]) && !IsSpace(code[|code| - 1])
    ensures Trim(pad + code + pad) == code
  {
    var s := pad + code + pad;
    var u := code + pad;
    assert s == pad + u;
    TrimStartPad(pad, u);
    TrimEndPad(code, pad);
  }

  lemma TrimStartPad(pad: string, u: string)
    requires forall i :: 0 <= i < |pad| ==> IsSpace(pad[i])
    requires |u| > 0 && !IsSpace(u[0])
    ensures TrimStart(pad + u) == u
  {
    var s := pad + u;
    forall i | 0 <= i < |pad| ensures IsSpace(s[i]) {
      assert s[i] == pad[i];
    }
    assert s[|pad|] == u[0];
    TrimStartAt(s, |pad|);
    assert s[|pad|..] == u;
  }

  lemma TrimEndPad(code: string, pad: string)
    requires forall i :: 0 <= i < |pad| ==> IsSpace(pad[i])
    requires |code| > 0 && !IsSpace(code[|code| - 1])
    ensures TrimEnd(code + pad) == code
  {
    var u := code + pad;
    forall i | |code| <= i < |u| ensures IsSpace(u[i]) {
      assert u[i] == pad[i - |code|];
    }
    assert u[|code| - 1] == code[|code| - 1];
    TrimEndAt(u, |code|);
    assert u[..|code|] == code;
  }
}
