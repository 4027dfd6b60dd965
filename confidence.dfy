/**
 * The confidence score of backend/src/shared/confidence.ts: five plausibility
 * checks on the extracted invoice plus one arithmetic cross-check, each worth
 * one point out of six, then ceilings for template-looking output, a zero
 * total, a short text snippet and reconciled input. Amounts are exact reals.
 */
module ConfidenceScore {
  import opened Wrappers
  import opened Strings
  import opened Json
  import opened Invoice

  /** The number of checks the score is divided by. */
  const Checks: nat := 6

  /** The relative tolerance of the arithmetic cross-check. */
  const Tolerance: real := 0.01

  const TemplateCeiling: real := 0.2
  const SnippetCeiling: real := 0.35
  const ReconciledCeiling: real := 0.85

  /** The snippet length below which text-based extraction is distrusted. */
  const ShortSnippetLength: nat := 80

  const OrNull := "or null"
  const SellerName := "seller name"
  const NumberWord := "number"
  const EurUsd := "eur/usd"
  const ReconciledPrefix := "reconciled_"

  /** The lower-cased template placeholders that count as "no value". */
  const PlaceholderWords: seq<string> := [
    SellerName, "item", NumberWord, "address or null", "vat number or null",
    "vat number", "eur/usd/etc", "eur/usd/etc.", "..."]

  function Min(a: real, b: real): real { if a <= b then a else b }

  function Max(a: real, b: real): real { if a >= b then a else b }

  function Abs(a: real): real { if a >= 0.0 then a else -a }

  /** `isPlaceholder`: blank after trimming, a listed placeholder, or anything mentioning "or null". */
  predicate IsPlaceholder(s: string) {
    PlaceholderText(Lower(Trim(s)))
  }

  /** The test on the trimmed, lower-cased text. */
  predicate PlaceholderText(v: string) {
    v == "" || v in PlaceholderWords || Contains(v, OrNull)
  }

  // The fields the scorer reads, each as `String(field ?? "").trim()`.

  function VendorName(x: Extraction): string { Trim(TextOf(x.vendor.name)) }

  function InvoiceNumber(x: Extraction): string { Trim(TextOf(x.invoice.invoiceNumber)) }

  function Currency(x: Extraction): string { Trim(TextOf(x.invoice.currency)) }

  /** `lineItems` when it is an array, else no items. */
  function Items(x: Extraction): seq<Value> {
    if x.lineItems.Arr? then x.lineItems.items else []
  }

  function Description(item: Value): string { Trim(TextOf(Get(item, "description"))) }

  /** The item's `amount` when it is a number. */
  function Amount(item: Value): Option<real> {
    var a := Get(item, "amount");
    if a.Num? then Some(RealOf(a.n)) else None
  }

  function Number(d: Option<Decimal>): Option<real> {
    if d.Some? then Some(RealOf(d.value)) else None
  }

  // The five plausibility checks.

  predicate RealVendor(x: Extraction) {
    var n := VendorName(x);
    n != "" && !IsPlaceholder(n) && Utf16Length(n) >= 3
  }

  predicate RealInvoiceNumber(x: Extraction) {
    var n := InvoiceNumber(x);
    n != "" && !IsPlaceholder(n) && (exists i :: 0 <= i < |n| && IsAlnum(n[i])) && HasDigit(n)
  }

  /** The shape `^[A-Z]{3}$` of an ISO 4217 alphabetic code. */
  predicate CurrencyShape(c: string) {
    |c| == 3 && forall i :: 0 <= i < |c| ==> IsAsciiUpper(c[i])
  }

  predicate RealCurrency(x: Extraction) {
    var c := Currency(x);
    c != "" && CurrencyShape(c) && c != "ETC"
  }

  predicate RealTotal(x: Extraction) {
    var t := Number(x.invoice.totalAmount);
    t.Some? && t.value > 0.0
  }

  predicate RealItem(item: Value) {
    var d := Description(item);
    var a := Amount(item);
    d != "" && !IsPlaceholder(d) && a.Some? && a.value > 0.0
  }

  predicate HasRealLineItem(x: Extraction) {
    var items := Items(x);
    |items| > 0 && exists i :: 0 <= i < |items| && RealItem(items[i])
  }

  // The arithmetic cross-check.

  /** What an item adds to the line sum: its numeric amount, else nothing. */
  function Contribution(item: Value): real {
    var a := Amount(item);
    if a.Some? then a.value else 0.0
  }

  /** The left-to-right `reduce` of the contributions, starting at 0. */
  function LineSum(items: seq<Value>): real {
    if items == [] then 0.0 else LineSum(items[..|items| - 1]) + Contribution(items[|items| - 1])
  }

  /** `close(a, b)` with its default tolerance. */
  predicate Close(a: real, b: real) {
    var m := Max(Abs(a), Abs(b));
    if m == 0.0 then a == b else Abs(a - b) / m <= Tolerance
  }

  predicate ArithmeticPoint(x: Extraction) {
    var t := Number(x.invoice.totalAmount);
    var tax := Number(x.invoice.taxAmount);
    var items := Items(x);
    t.Some? && tax.Some? && t.value > 0.0 && tax.value >= 0.0 && |items| > 0
    && var net := t.value - tax.value;
       var sum := LineSum(items);
       net > 0.0 && sum > 0.0 && Close(net, sum)
  }

  /** The six verdicts the source computes before scoring. */
  datatype Verdicts = Verdicts(
    vendor: bool, invoiceNumber: bool, currency: bool,
    total: bool, lineItem: bool, arithmetic: bool)

  function VerdictsOf(x: Extraction): Verdicts {
    Verdicts(RealVendor(x), RealInvoiceNumber(x), RealCurrency(x),
             RealTotal(x), HasRealLineItem(x), ArithmeticPoint(x))
  }

  function Indicator(b: bool): nat { if b then 1 else 0 }

  /** The number of verdicts that hold. */
  function Points(v: Verdicts): nat {
    Indicator(v.vendor) + Indicator(v.invoiceNumber) + Indicator(v.currency)
    + Indicator(v.total) + Indicator(v.lineItem) + Indicator(v.arithmetic)
  }

  /** The number of checks passed. */
  function Score(x: Extraction): nat { Points(VerdictsOf(x)) }

  /** `Math.min(1, Math.max(0, score / total))` */
  function Base(x: Extraction): real {
    Min(1.0, Max(0.0, Score(x) as real / Checks as real))
  }

  // The ceilings.

  predicate LooksLikeTemplate(x: Extraction) {
    var items := Items(x);
    IsPlaceholder(VendorName(x))
    || (exists i :: 0 <= i < |items| && IsPlaceholder(Description(items[i])))
    || Lower(VendorName(x)) == SellerName
    || Contains(Lower(Currency(x)), EurUsd)
    || Lower(InvoiceNumber(x)) == NumberWord
  }

  predicate ZeroTotal(x: Extraction) {
    var t := Number(x.invoice.totalAmount);
    t.Some? && t.value == 0.0
  }

  function Snippet(x: Extraction): string {
    if x.meta.Some? then Trim(x.meta.value.extractedTextSnippet) else ""
  }

  /** The snippet names visual processing, when a short snippet is expected. */
  predicate VisualProcessing(s: string) {
    Contains(s, "visually by AI") || Contains(s, "PDF processed")
  }

  predicate ShortSnippet(x: Extraction) {
    var s := Snippet(x);
    s != "" && Utf16Length(s) < ShortSnippetLength && !VisualProcessing(s)
  }

  predicate Reconciled(x: Extraction) {
    x.meta.Some?
    && var w := x.meta.value.warnings;
       exists i :: 0 <= i < |w| && StartsWith(w[i], ReconciledPrefix)
  }

  /** The score, lowered by each ceiling in the order the source applies them. */
  function Confidence(x: Extraction): real {
    var c0 := Base(x);
    var c1 := if LooksLikeTemplate(x) then Min(c0, TemplateCeiling) else c0;
    var c2 := if ZeroTotal(x) then Min(c1, TemplateCeiling) else c1;
    var c3 := if ShortSnippet(x) then Min(c2, SnippetCeiling) else c2;
    if Reconciled(x) then Min(c3, ReconciledCeiling) else c3
  }

  // Where the scorer throws: `String(field ?? "")` on a field that does not
  // convert (see `Json.Convertible`) throws `ConversionError`.

  /** Whether the callback of the `some` scan returns true on `item`: a real item, or a placeholder description. */
  predicate StopsScan(item: Value, forRealItem: bool) {
    if forRealItem then RealItem(item) else IsPlaceholder(Description(item))
  }

  /**
   * `lineItems.some(...)` throws: it reaches an item whose description does
   * not convert before the callback has returned true on an item.
   */
  predicate ScanThrows(items: seq<Value>, forRealItem: bool)
    decreases |items|
  {
    items != []
    && (!TextConvertible(Get(items[0], "description"))
        || (!StopsScan(items[0], forRealItem) && ScanThrows(items[1..], forRealItem)))
  }

  /**
   * `calculateConfidence` throws: on the vendor name, invoice number or
   * currency, in the `hasRealLineItem` scan, or in the template scan, which
   * only runs when the vendor name is not a placeholder (`||` short-circuits).
   */
  predicate ScoringThrows(x: Extraction) {
    || !TextConvertible(x.vendor.name)
    || !TextConvertible(x.invoice.invoiceNumber)
    || !TextConvertible(x.invoice.currency)
    || ScanThrows(Items(x), true)
    || (!IsPlaceholder(VendorName(x)) && ScanThrows(Items(x), false))
  }

  /**
   * `calculateConfidence`: one point per verdict in `score`, then lowered step
   * by step; `Err` is the `TypeError` of a field that does not convert. The
   * conversions have no effect besides the throw, so testing for it first
   * yields what meeting it along the way does.
   */
  method CalculateConfidence(x: Extraction) returns (r: Result<real>)
    ensures r.Err? <==> ScoringThrows(x)
    ensures r.Err? ==> r.message == ConversionError
    ensures r.Ok? ==> r.value == Confidence(x)
  {
    if ScoringThrows(x) {
      return Err(ConversionError);
    }
    var score := CountPoints(VerdictsOf(x));
    var conf := Min(1.0, Max(0.0, score as real / Checks as real));
    if LooksLikeTemplate(x) { conf := Min(conf, TemplateCeiling); }
    if ZeroTotal(x) { conf := Min(conf, TemplateCeiling); }
    if ShortSnippet(x) { conf := Min(conf, SnippetCeiling); }
    if Reconciled(x) { conf := Min(conf, ReconciledCeiling); }
    r := Ok(conf);
  }

  /**
   * A scan throws exactly when some item's description does not convert and
   * every item before it converts without stopping the scan.
   */
  lemma {:induction false} ScanThrowsIff(items: seq<Value>, forRealItem: bool)
    ensures ScanThrows(items, forRealItem) <==>
      exists k :: 0 <= k < |items| && ThrowsAt(items, k, forRealItem)
    decreases |items|
  {
    if items != [] {
      ScanThrowsIff(items[1..], forRealItem);
      if ScanThrows(items, forRealItem) {
        if TextConvertible(Get(items[0], "description")) {
          var k :| 0 <= k < |items[1..]| && ThrowsAt(items[1..], k, forRealItem);
          ThrowsAtShift(items, k, forRealItem);
        } else {
          assert ThrowsAt(items, 0, forRealItem);
        }
      } else {
        forall k | 0 <= k < |items|
          ensures !ThrowsAt(items, k, forRealItem)
        {
          if k > 0 && ThrowsAt(items, k, forRealItem) {
            ThrowsAtUnshift(items, k, forRealItem);
          }
        }
      }
    }
  }

  /** The scan reaches `items[k]` and its description does not convert. */
  predicate ThrowsAt(items: seq<Value>, k: nat, forRealItem: bool) {
    && k < |items|
    && !TextConvertible(Get(items[k], "description"))
    && forall j :: 0 <= j < k ==> TextConvertible(Get(items[j], "description")) && !StopsScan(items[j], forRealItem)
  }

  lemma ThrowsAtShift(items: seq<Value>, k: nat, forRealItem: bool)
    requires items != [] && ThrowsAt(items[1..], k, forRealItem)
    requires TextConvertible(Get(items[0], "description")) && !StopsScan(items[0], forRealItem)
    ensures ThrowsAt(items, k + 1, forRealItem)
  {
    forall j | 0 < j < k + 1
      ensures TextConvertible(Get(items[j], "description")) && !StopsScan(items[j], forRealItem)
    {
      assert items[j] == items[1..][j - 1];
    }
  }

  lemma ThrowsAtUnshift(items: seq<Value>, k: nat, forRealItem: bool)
    requires 0 < k && ThrowsAt(items, k, forRealItem)
    ensures TextConvertible(Get(items[0], "description")) && !StopsScan(items[0], forRealItem)
    ensures ThrowsAt(items[1..], k - 1, forRealItem)
  {
    forall j | 0 <= j < k - 1
      ensures TextConvertible(Get(items[1..][j], "description")) && !StopsScan(items[1..][j], forRealItem)
    {
      assert items[1..][j] == items[j + 1];
    }
  }

  /** An extraction whose scored fields all convert scores without throwing. */
  lemma ConvertibleFieldsScore(x: Extraction)
    requires TextConvertible(x.vendor.name) && TextConvertible(x.invoice.invoiceNumber) && TextConvertible(x.invoice.currency)
    requires forall i :: 0 <= i < |Items(x)| ==> TextConvertible(Get(Items(x)[i], "description"))
    ensures !ScoringThrows(x)
  {
    ScanThrowsIff(Items(x), true);
    ScanThrowsIff(Items(x), false);
  }

  /** A vendor name that is an object with its own `toString` key makes the scorer throw. */
  lemma ObjectVendorThrows(x: Extraction, m: map<string, Value>)
    requires x.vendor.name == Obj(m) && "toString" in m
    ensures ScoringThrows(x)
  {
    ConvertibleCases(Null, m);
  }

  /**
   * Behind a real item, the `hasRealLineItem` scan stops before any later
   * description is converted.
   */
  lemma RealItemStopsScan(items: seq<Value>)
    requires items != [] && TextConvertible(Get(items[0], "description")) && RealItem(items[0])
    ensures !ScanThrows(items, true)
  {
  }

  /** The `score += 1` steps. */
  method CountPoints(v: Verdicts) returns (score: nat)
    ensures score == Points(v)
  {
    score := 0;
    if v.vendor { score := score + 1; }
    if v.invoiceNumber { score := score + 1; }
    if v.currency { score := score + 1; }
    if v.total { score := score + 1; }
    if v.lineItem { score := score + 1; }
    if v.arithmetic { score := score + 1; }
  }

  /** The lowest ceiling that applies, or 1 when none does. */
  function Ceiling(x: Extraction): (c: real)
    ensures LooksLikeTemplate(x) || ZeroTotal(x) ==> c == TemplateCeiling
    ensures ShortSnippet(x) ==> c <= SnippetCeiling
    ensures Reconciled(x) ==> c <= ReconciledCeiling
    ensures !LooksLikeTemplate(x) && !ZeroTotal(x) && !ShortSnippet(x) && !Reconciled(x) ==> c == 1.0
  {
    if LooksLikeTemplate(x) || ZeroTotal(x) then TemplateCeiling
    else if ShortSnippet(x) then SnippetCeiling
    else if Reconciled(x) then ReconciledCeiling
    else 1.0
  }

  /** The ceilings are all applied through `min`, so their order does not matter. */
  lemma ConfidenceIsCappedBase(x: Extraction)
    ensures Confidence(x) == Min(Base(x), Ceiling(x))
  {
  }

  /** The base score is exactly the fraction of checks passed: the clamp never bites. */
  lemma BaseIsPassRatio(x: Extraction)
    ensures 0 <= Score(x) <= Checks
    ensures Base(x) == Score(x) as real / 6.0
  {
  }

  /** The score lies in [0, 1] and the ceilings only lower it. */
  lemma ConfidenceInUnitInterval(x: Extraction)
    ensures 0.0 <= Confidence(x) <= Base(x) <= 1.0
  {
    ConfidenceIsCappedBase(x);
    BaseIsPassRatio(x);
  }

  /** Each ceiling holds whenever its condition does. */
  lemma CeilingsHold(x: Extraction)
    ensures LooksLikeTemplate(x) ==> Confidence(x) <= TemplateCeiling
    ensures ZeroTotal(x) ==> Confidence(x) <= TemplateCeiling
    ensures ShortSnippet(x) ==> Confidence(x) <= SnippetCeiling
    ensures Reconciled(x) ==> Confidence(x) <= ReconciledCeiling
  {
    ConfidenceIsCappedBase(x);
  }

  /** Full confidence exactly when all six checks pass and no ceiling applies. */
  lemma FullConfidence(x: Extraction)
    ensures Confidence(x) == 1.0 <==> Score(x) == Checks && Ceiling(x) == 1.0
  {
    ConfidenceIsCappedBase(x);
    BaseIsPassRatio(x);
  }

  /** A blank vendor name fails its check and marks the output as a template. */
  lemma BlankVendorIsTemplate(x: Extraction)
    requires VendorName(x) == ""
    ensures !RealVendor(x) && LooksLikeTemplate(x)
    ensures Confidence(x) <= TemplateCeiling
  {
    CeilingsHold(x);
  }

  /** A placeholder vendor or line description fails its check and marks the output as a template. */
  lemma PlaceholderIsTemplate(x: Extraction, i: nat)
    requires i < |Items(x)| && IsPlaceholder(Description(Items(x)[i]))
    ensures !RealItem(Items(x)[i]) && LooksLikeTemplate(x)
  {
  }

  /** The arithmetic point needs a positive total, a tax, and line items whose sum is close to the net. */
  lemma ArithmeticPointNeeds(x: Extraction)
    requires ArithmeticPoint(x)
    ensures RealTotal(x) && |Items(x)| > 0 && x.invoice.taxAmount.Some?
    ensures Abs(Number(x.invoice.totalAmount).value - Number(x.invoice.taxAmount).value - LineSum(Items(x)))
            <= Tolerance * Max(Number(x.invoice.totalAmount).value - Number(x.invoice.taxAmount).value, LineSum(Items(x)))
  {
    var net := Number(x.invoice.totalAmount).value - Number(x.invoice.taxAmount).value;
    CloseWithin(net, LineSum(Items(x)));
  }

  /** For two positive amounts `close` bounds the difference by 1% of the larger one. */
  lemma CloseWithin(a: real, b: real)
    requires a > 0.0 && b > 0.0
    ensures Close(a, b) <==> Abs(a - b) <= Tolerance * Max(a, b)
  {
    var m := Max(a, b);
    assert Max(Abs(a), Abs(b)) == m > 0.0;
    DivBound(Abs(a - b), m, Tolerance);
  }

  lemma DivBound(d: real, m: real, t: real)
    requires m > 0.0
    ensures d / m <= t <==> d <= t * m
  {
    assert d == (d / m) * m;
  }

  /** The part of the metadata the score reads: the snippet and the warnings. */
  function ScoredMeta(x: Extraction): Option<(string, seq<string>)> {
    if x.meta.Some? then Some((x.meta.value.extractedTextSnippet, x.meta.value.warnings)) else None
  }

  /**
   * The score reads only the vendor, the invoice header, the line items and
   * the snippet and warnings of the metadata; in particular not the
   * `confidenceScore` it is written back into.
   */
  lemma ConfidenceReadsOnly(x: Extraction, y: Extraction)
    requires x.vendor == y.vendor && x.invoice == y.invoice && x.lineItems == y.lineItems
    requires ScoredMeta(x) == ScoredMeta(y)
    ensures Confidence(x) == Confidence(y)
  {
    SameVerdicts(x, y);
    SameTemplate(x, y);
    SameMetaCeilings(x, y);
  }

  lemma SameVerdicts(x: Extraction, y: Extraction)
    requires x.vendor == y.vendor && x.invoice == y.invoice && x.lineItems == y.lineItems
    ensures VerdictsOf(x) == VerdictsOf(y)
  {
    SameFields(x, y);
    assert RealVendor(x) == RealVendor(y);
    assert RealInvoiceNumber(x) == RealInvoiceNumber(y);
    assert RealCurrency(x) == RealCurrency(y);
    assert HasRealLineItem(x) == HasRealLineItem(y);
    assert ArithmeticPoint(x) == ArithmeticPoint(y);
  }

  lemma SameFields(x: Extraction, y: Extraction)
    requires x.vendor == y.vendor && x.invoice == y.invoice && x.lineItems == y.lineItems
    ensures VendorName(x) == VendorName(y) && InvoiceNumber(x) == InvoiceNumber(y)
    ensures Currency(x) == Currency(y) && Items(x) == Items(y)
  {
  }

  lemma SameTemplate(x: Extraction, y: Extraction)
    requires x.vendor == y.vendor && x.invoice == y.invoice && x.lineItems == y.lineItems
    ensures LooksLikeTemplate(x) == LooksLikeTemplate(y) && ZeroTotal(x) == ZeroTotal(y)
  {
    SameFields(x, y);
  }

  lemma SameMetaCeilings(x: Extraction, y: Extraction)
    requires ScoredMeta(x) == ScoredMeta(y)
    ensures ShortSnippet(x) == ShortSnippet(y) && Reconciled(x) == Reconciled(y)
  {
    assert Snippet(x) == Snippet(y);
  }

  /** The line sum of two runs of items is the sum of their line sums. */
  lemma {:induction false} LineSumConcat(a: seq<Value>, b: seq<Value>)
    ensures LineSum(a + b) == LineSum(a) + LineSum(b)
    decreases |b|
  {
    if b != [] {
      var b' := b[..|b| - 1];
      assert (a + b)[..|a + b| - 1] == a + b';
      LineSumConcat(a, b');
    } else {
      assert a + b == a;
    }
  }

  /** An item without a numeric amount adds nothing to the line sum, wherever it stands. */
  lemma LineSumSkipsNonNumeric(a: seq<Value>, item: Value, b: seq<Value>)
    requires Amount(item).None?
    ensures LineSum(a + [item] + b) == LineSum(a + b)
  {
    LineSumConcat(a + [item], b);
    LineSumConcat(a, b);
    assert (a + [item])[..|a + [item]| - 1] == a;
  }
}

/** A worked example: a complete, consistent invoice scores exactly 1. */
module ConfidenceScoreExamples {
  import opened Wrappers
  import opened Strings
  import opened Json
  import opened Invoice
  import opened ConfidenceScore

  // Written as concatenations so that the verifier does not evaluate every function on them.
  const AcmeCorp := "Acme" + " Corp"
  const InvoiceNo := "INV" + "-2024-001"
  const Usd := "U" + "SD"
  const Consulting := "Consult" + "ing"

  function ConsultingItem(): Value {
    Obj(map["description" := Str(Consulting), "amount" := Num(Decimal(900, 0))])
  }

  /** Vendor "Acme Corp", number "INV-2024-001", USD, total 1000 with tax 100, one 900 item, no meta. */
  function Acme(): Extraction {
    Extraction(
      Vendor(Str(AcmeCorp), Null, Null),
      Header(Str(InvoiceNo), Null, Null, Null, Null, Str(Usd), Some(Decimal(1000, 0)), Some(Decimal(100, 0))),
      Arr([ConsultingItem()]),
      None)
  }

  /** A text without some letter of "or null" that differs from every listed placeholder in
      length or first letter is not placeholder text. */
  lemma NotPlaceholderText(v: string, c: char)
    requires v != [] && c in OrNull && c !in v
    requires forall k :: 0 <= k < |PlaceholderWords| ==> |PlaceholderWords[k]| != |v| || PlaceholderWords[k][0] != v[0]
    ensures !PlaceholderText(v)
  {
    if Contains(v, OrNull) {
      ContainsChars(v, OrNull, c);
    }
  }

  /** A trimmed text whose lower-cased form is not placeholder text is real. */
  lemma NotPlaceholder(s: string)
    requires s != [] && !IsSpace(s[0]) && !IsSpace(s[|s| - 1])
    requires !PlaceholderText(Lower(s))
    ensures !IsPlaceholder(s)
  {
    TrimOfTrimmed(s);
  }

  /** Lower-casing cannot produce a letter whose two cases are both absent. */
  lemma LowerAvoids(s: string, c: char)
    requires IsAsciiLower(c)
    requires c !in s && (c as int - 32) as char !in s
    ensures c !in Lower(s)
  {
  }

  /** The listed placeholders have these lengths and, where two share a length with the
      example's texts, these first letters. */
  lemma PlaceholderShapes()
    ensures forall k :: 0 <= k < |PlaceholderWords| ==>
      |PlaceholderWords[k]| != 9
      && (|PlaceholderWords[k]| == 10 ==> PlaceholderWords[k][0] == 'v')
      && (|PlaceholderWords[k]| == 12 ==> PlaceholderWords[k][0] == 'e')
  {
  }

  /** A trimmed text lacking both cases of a letter of "or null", and unlike every listed
      placeholder in length or first letter, is real. */
  lemma RealText(s: string, c: char)
    requires s != [] && !IsSpace(s[0]) && !IsSpace(s[|s| - 1])
    requires c in OrNull && IsAsciiLower(c)
    requires c !in s && (c as int - 32) as char !in s
    requires forall k :: 0 <= k < |PlaceholderWords| ==>
      |PlaceholderWords[k]| != |s| || PlaceholderWords[k][0] != LowerChar(s[0])
    ensures !IsPlaceholder(s)
  {
    LowerAvoids(s, c);
    var v := Lower(s);
    assert |v| == |s| && v[0] == LowerChar(s[0]);
    NotPlaceholderText(v, c);
    NotPlaceholder(s);
  }

  lemma AcmeCorpReal()
    ensures !IsPlaceholder(AcmeCorp)
  {
    PlaceholderShapes();
    RealText(AcmeCorp, 'n');
  }

  lemma InvoiceNoReal()
    ensures !IsPlaceholder(InvoiceNo)
  {
    PlaceholderShapes();
    RealText(InvoiceNo, 'u');
  }

  lemma ConsultingReal()
    ensures !IsPlaceholder(Consulting)
  {
    PlaceholderShapes();
    RealText(Consulting, 'r');
  }

  lemma AcmeVendorName()
    ensures VendorName(Acme()) == AcmeCorp
  {
    TextOfStr(AcmeCorp);
    TrimOfTrimmed(AcmeCorp);
  }

  lemma AcmeVendor()
    ensures VendorName(Acme()) == AcmeCorp
    ensures RealVendor(Acme())
  {
    AcmeVendorName();
    AcmeCorpReal();
  }

  lemma AcmeInvoiceNo()
    ensures InvoiceNumber(Acme()) == InvoiceNo
  {
    TextOfStr(InvoiceNo);
    TrimOfTrimmed(InvoiceNo);
  }

  lemma AcmeInvoiceNumber()
    ensures InvoiceNumber(Acme()) == InvoiceNo
    ensures RealInvoiceNumber(Acme())
  {
    AcmeInvoiceNo();
    InvoiceNoReal();
    InvoiceNoShape();
    RealNumber(Acme(), InvoiceNo, 4);
  }

  lemma InvoiceNoShape()
    ensures |InvoiceNo| > 4 && IsAlnum(InvoiceNo[0]) && IsDigit(InvoiceNo[4])
  {
  }

  /** A real text with an alphanumeric first character and a digit at `k` is a real invoice number. */
  lemma RealNumber(x: Extraction, n: string, k: nat)
    requires InvoiceNumber(x) == n && !IsPlaceholder(n)
    requires k < |n| && IsAlnum(n[0]) && IsDigit(n[k])
    ensures RealInvoiceNumber(x)
  {
  }

  lemma AcmeCurrency()
    ensures Currency(Acme()) == Usd
    ensures RealCurrency(Acme())
  {
    TextOfStr(Usd);
    TrimOfTrimmed(Usd);
  }

  lemma ConsultingFields()
    ensures Get(ConsultingItem(), "description") == Str(Consulting)
    ensures Amount(ConsultingItem()) == Some(900.0)
  {
  }

  lemma ConsultingDescription()
    ensures Description(ConsultingItem()) == Consulting
  {
    ConsultingFields();
    TextOfStr(Consulting);
    TrimOfTrimmed(Consulting);
  }

  lemma AcmeItem()
    ensures Description(ConsultingItem()) == Consulting
    ensures RealItem(ConsultingItem())
  {
    ConsultingFields();
    ConsultingDescription();
    ConsultingReal();
  }

  lemma AcmeArithmetic()
    ensures ArithmeticPoint(Acme())
  {
    assert Items(Acme()) == [ConsultingItem()];
    assert LineSum([ConsultingItem()]) == 900.0 by {
      assert [ConsultingItem()][..0] == [];
    }
  }

  /** The template test fails when each of its five parts does. */
  lemma NotTemplate(x: Extraction, vendor: string, number: string, currency: string, item: Value)
    requires VendorName(x) == vendor && InvoiceNumber(x) == number && Currency(x) == currency
    requires !IsPlaceholder(vendor) && Lower(vendor) != SellerName
    requires Lower(number) != NumberWord && !Contains(Lower(currency), EurUsd)
    requires Items(x) == [item] && !IsPlaceholder(Description(item))
    ensures !LooksLikeTemplate(x)
  {
    NoPlaceholderItem(Items(x), item);
  }

  lemma NoPlaceholderItem(items: seq<Value>, item: Value)
    requires items == [item] && !IsPlaceholder(Description(item))
    ensures !exists i :: 0 <= i < |items| && IsPlaceholder(Description(items[i]))
  {
    OnlyElement(items, item);
  }

  /** Every element of a one-element sequence is that element. */
  lemma OnlyElement<T>(xs: seq<T>, x: T)
    requires xs == [x]
    ensures forall i :: 0 <= i < |xs| ==> xs[i] == x
  {
  }

  /** A single real item is a real line item. */
  lemma OneRealItem(x: Extraction, item: Value)
    requires Items(x) == [item] && RealItem(item)
    ensures HasRealLineItem(x)
  {
    assert Items(x)[0] == item;
  }

  /** All six checks pass. */
  lemma AllChecks(x: Extraction)
    requires RealVendor(x) && RealInvoiceNumber(x) && RealCurrency(x)
    requires RealTotal(x) && HasRealLineItem(x) && ArithmeticPoint(x)
    ensures Score(x) == Checks
  {
  }

  /** No ceiling applies. */
  lemma NoCeiling(x: Extraction)
    requires !LooksLikeTemplate(x) && !ZeroTotal(x) && !ShortSnippet(x) && !Reconciled(x)
    ensures Ceiling(x) == 1.0
  {
  }

  lemma AcmeCurrencyNotEurUsd()
    ensures !Contains(Lower(Usd), EurUsd)
  {
    LowerAt(Usd);
    if Contains(Lower(Usd), EurUsd) {
      ContainsChars(Lower(Usd), EurUsd, 'e');
    }
  }

  lemma AcmeItems()
    ensures Items(Acme()) == [ConsultingItem()]
  {
  }

  lemma AcmeVendorFacts()
    ensures VendorName(Acme()) == AcmeCorp && !IsPlaceholder(AcmeCorp) && Lower(AcmeCorp) != SellerName
  {
    AcmeVendorName();
    AcmeCorpReal();
    assert |Lower(AcmeCorp)| == 9;
  }

  lemma AcmeNumberFacts()
    ensures InvoiceNumber(Acme()) == InvoiceNo && Lower(InvoiceNo) != NumberWord
  {
    AcmeInvoiceNo();
    assert |Lower(InvoiceNo)| == 12;
  }

  lemma AcmeCurrencyFacts()
    ensures Currency(Acme()) == Usd && !Contains(Lower(Usd), EurUsd)
  {
    AcmeCurrency();
    AcmeCurrencyNotEurUsd();
  }

  lemma AcmeItemFacts()
    ensures Items(Acme()) == [ConsultingItem()] && !IsPlaceholder(Description(ConsultingItem()))
  {
    AcmeItems();
    ConsultingDescription();
    ConsultingReal();
  }

  lemma AcmeNotTemplate()
    ensures !LooksLikeTemplate(Acme())
  {
    AcmeVendorFacts();
    AcmeNumberFacts();
    AcmeCurrencyFacts();
    AcmeItemFacts();
    NotTemplate(Acme(), AcmeCorp, InvoiceNo, Usd, ConsultingItem());
  }

  /** Without meta there is no snippet and no warning, and the total is not zero. */
  lemma AcmeNoOtherCeiling()
    ensures !ZeroTotal(Acme()) && !ShortSnippet(Acme()) && !Reconciled(Acme())
  {
  }

  lemma AcmeLineItem()
    ensures HasRealLineItem(Acme())
  {
    AcmeItem();
    AcmeItems();
    OneRealItem(Acme(), ConsultingItem());
  }

  lemma AcmeScore()
    ensures Score(Acme()) == Checks
  {
    AcmeVendor();
    AcmeInvoiceNumber();
    AcmeCurrency();
    AcmeLineItem();
    AcmeArithmetic();
    AllChecks(Acme());
  }

  lemma AcmeCeiling()
    ensures Ceiling(Acme()) == 1.0
  {
    AcmeNotTemplate();
    AcmeNoOtherCeiling();
    NoCeiling(Acme());
  }

  /** The invoice passes all six checks, triggers no ceiling, and so scores 1. */
  lemma AcmeScoresOne()
    ensures Confidence(Acme()) == 1.0
  {
    AcmeScore();
    AcmeCeiling();
    FullConfidence(Acme());
  }

  /** Every field the scorer converts is a string, so scoring the invoice does not throw. */
  lemma AcmeConverts()
    ensures !ScoringThrows(Acme())
  {
    AcmeItems();
    ConsultingFields();
    ConvertibleFieldsScore(Acme());
  }
}
