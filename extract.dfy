/**
 * The pure steps of backend/src/extract.ts: choosing the media type of an
 * attachment, cutting the JSON object out of the model's reply, and mapping
 * the reply onto the canonical invoice record.
 */
module Extract {
  import opened Wrappers
  import opened Strings
  import opened Json
  import opened Money
  import opened Invoice
  import opened Bedrock

  // ----- prepareDocument -----

  /** The media type `prepareDocument` picks from the lower-cased key's extension; unknown types count as PDF. */
  function MediaTypeOfKey(key: string): (m: MediaType)
    ensures m == Png ==> EndsWith(Lower(key), ".png")
    ensures m == Jpeg ==> EndsWith(Lower(key), ".jpg") || EndsWith(Lower(key), ".jpeg")
  {
    MediaTypeOfExtension(Lower(key))
  }

  /** The extension tests on the already lower-cased key, in the order the source runs them. */
  function MediaTypeOfExtension(lower: string): (m: MediaType)
    ensures m == Png ==> EndsWith(lower, ".png")
    ensures m == Jpeg ==> EndsWith(lower, ".jpg") || EndsWith(lower, ".jpeg")
  {
    if EndsWith(lower, ".pdf") then Pdf
    else if EndsWith(lower, ".png") then Png
    else if EndsWith(lower, ".jpg") || EndsWith(lower, ".jpeg") then Jpeg
    else Pdf
  }

  function PrepareDocument(key: string, data: seq<bv8>): (d: Document)
    ensures d.data == data && d.mediaType == MediaTypeOfKey(key)
  {
    Document(MediaTypeOfKey(key), data)
  }

  lemma {:induction false} LowerAppend(a: string, b: string)
    ensures Lower(a + b) == Lower(a) + Lower(b)
  {
    var l := Lower(a + b);
    LowerAt(a + b);
    LowerAt(a);
    LowerAt(b);
    forall i | 0 <= i < |a + b| ensures l[i] == (Lower(a) + Lower(b))[i] {
      if i < |a| {
        assert (a + b)[i] == a[i];
      } else {
        assert (a + b)[i] == b[i - |a|];
      }
    }
  }

  /** The last characters of `x + e` are `e`. */
  lemma Tail(x: string, e: string)
    ensures (x + e)[|x + e| - |e|..] == e
  {
  }

  /** Each four-character extension decides the type of any lower-cased key ending in it. */
  lemma ExtensionFour(x: string, e: string)
    requires e == ".pdf" || e == ".png" || e == ".jpg"
    ensures MediaTypeOfExtension(x + e) == (if e == ".pdf" then Pdf else if e == ".png" then Png else Jpeg)
  {
    Tail(x, e);
  }

  /** ".jpeg" is none of the shorter extensions: its last four characters are "jpeg". */
  lemma ExtensionJpeg(x: string)
    ensures MediaTypeOfExtension(x + ".jpeg") == Jpeg
  {
    var l := x + ".jpeg";
    Tail(x, ".jpeg");
    Tail(x + ".", "jpeg");
    assert l == (x + ".") + "jpeg";
    assert l[|l| - 4..] == "jpeg";
    assert EndsWith(l, ".jpeg");
  }

  /** The extension decides, whatever the case of its letters and whatever comes before it. */
  lemma KeyPdf(stem: string, ext: string)
    requires Lower(ext) == ".pdf"
    ensures MediaTypeOfKey(stem + ext) == Pdf
  {
    LowerAppend(stem, ext);
    ExtensionFour(Lower(stem), ".pdf");
  }

  lemma KeyPng(stem: string, ext: string)
    requires Lower(ext) == ".png"
    ensures MediaTypeOfKey(stem + ext) == Png
  {
    LowerAppend(stem, ext);
    ExtensionFour(Lower(stem), ".png");
  }

  lemma KeyJpg(stem: string, ext: string)
    requires Lower(ext) == ".jpg"
    ensures MediaTypeOfKey(stem + ext) == Jpeg
  {
    LowerAppend(stem, ext);
    ExtensionFour(Lower(stem), ".jpg");
  }

  lemma KeyJpeg(stem: string, ext: string)
    requires Lower(ext) == ".jpeg"
    ensures MediaTypeOfKey(stem + ext) == Jpeg
  {
    LowerAppend(stem, ext);
    ExtensionJpeg(Lower(stem));
  }

  /** A key without any of the four extensions is treated as a PDF. */
  lemma KeyUnknown(key: string)
    requires !EndsWith(Lower(key), ".png") && !EndsWith(Lower(key), ".jpg") && !EndsWith(Lower(key), ".jpeg")
    ensures MediaTypeOfKey(key) == Pdf
  {
  }

  // ----- parseJsonResponse -----

  /** `^```json?\s*` with the `i` flag: the length of its match at the head of `s`, or 0. */
  function OpeningFence(s: string): (k: nat)
    ensures k <= |s|
  {
    if |s| >= 6 && s[..3] == "```" && Lower(s[3..6]) == "jso" then
      var n := if |s| > 6 && LowerChar(s[6]) == 'n' then 7 else 6;
      |s| - |TrimStart(s[n..])|
    else 0
  }

  /** The opening fence holds no brace. */
  lemma OpeningFenceFree(s: string)
    ensures NoBrace(s[..OpeningFence(s)])
  {
    if |s| >= 6 && s[..3] == "```" && Lower(s[3..6]) == "jso" {
      var n := if |s| > 6 && LowerChar(s[6]) == 'n' then 7 else 6;
      FenceFree(s, n, OpeningFence(s));
    }
  }

  lemma FenceFree(s: string, n: nat, k: nat)
    requires 6 <= n <= 7 && n <= |s| && s[..3] == "```" && Lower(s[3..6]) == "jso"
    requires n == 7 ==> LowerChar(s[6]) == 'n'
    requires k == |s| - |TrimStart(s[n..])|
    ensures n <= k <= |s|
    ensures NoBrace(s[..k])
  {
    TagFree(s, n);
    BlankFree(s[n..], k - n);
    NoBraceJoin(s, n, k);
  }

  predicate NoBrace(x: string) {
    '{' !in x && '}' !in x
  }

  lemma NoBraceJoin(x: string, n: nat, k: nat)
    requires n <= k <= |x| && NoBrace(x[..n]) && NoBrace(x[n..][..k - n])
    ensures NoBrace(x[..k])
  {
    assert x[..k] == x[..n] + x[n..][..k - n];
  }

  lemma TagFree(s: string, n: nat)
    requires 6 <= n <= 7 && n <= |s| && s[..3] == "```" && Lower(s[3..6]) == "jso"
    requires n == 7 ==> LowerChar(s[6]) == 'n'
    ensures NoBrace(s[..n])
  {
    LowerAt(s[3..6]);
    forall i | 0 <= i < n ensures s[i] != '{' && s[i] != '}' {
      if i < 3 {
        assert s[..3][i] == s[i];
      } else if i < 6 {
        assert Lower(s[3..6])[i - 3] == LowerChar(s[i]);
      }
    }
  }

  lemma BlankFree(u: string, m: nat)
    requires m == |u| - |TrimStart(u)|
    ensures NoBrace(u[..m])
  {
    TrimStartSpace(u);
    forall i | 0 <= i < m ensures u[i] != '{' && u[i] != '}' {
      assert IsSpace(u[i]);
    }
  }

  /** `\s*```$`: where its match starts, or `|s|` when there is no closing fence. */
  function ClosingFence(s: string): (k: nat)
    ensures k <= |s|
  {
    if |s| >= 3 && s[|s| - 3..] == "```" then |TrimEnd(s[..|s| - 3])| else |s|
  }

  /** The closing fence holds no brace. */
  lemma ClosingFenceFree(s: string)
    ensures NoBrace(s[ClosingFence(s)..])
  {
    if |s| >= 3 && s[|s| - 3..] == "```" {
      var body := s[..|s| - 3];
      var k := |TrimEnd(body)|;
      TrimEndSpace(body);
      assert forall i :: k <= i < |s| ==> s[i] == (if i < |body| then body[i] else s[|s| - 3..][i - |body|]);
    }
  }

  /** The trimmed reply with its code fences removed: a slice of the trimmed reply. */
  function Unfenced(t: string): (r: (nat, nat))
    ensures r.0 <= r.1 <= |t|
  {
    var a := OpeningFence(t);
    (a, a + ClosingFence(t[a..]))
  }

  /** What the fences cut off holds no brace. */
  lemma UnfencedFree(t: string)
    ensures NoBrace(t[..Unfenced(t).0]) && NoBrace(t[Unfenced(t).1..])
  {
    var a := OpeningFence(t);
    var u := t[a..];
    OpeningFenceFree(t);
    ClosingFenceFree(u);
    assert t[a + ClosingFence(u)..] == u[ClosingFence(u)..];
  }

  /** The text from the first `{` to the last `}` inclusive, or `None` when there is no such span. */
  function BraceSpan(t: string): (r: Option<string>)
    ensures r.Some? ==> |r.value| >= 2 && r.value[0] == '{' && r.value[|r.value| - 1] == '}'
  {
    SpanAt(t, IndexOf(t, '{'), LastIndexOf(t, '}'))
  }

  function SpanAt(t: string, i: int, j: int): (r: Option<string>)
    requires -1 <= i < |t| && -1 <= j < |t|
    requires i >= 0 ==> t[i] == '{'
    requires j >= 0 ==> t[j] == '}'
    ensures r.Some? ==> |r.value| >= 2 && r.value[0] == '{' && r.value[|r.value| - 1] == '}'
  {
    if i == -1 || j == -1 || j <= i then None else Some(t[i..j + 1])
  }

  /** The message of the `TypeError` `text.trim()` raises on a value that is not a string. */
  const TrimTypeError := "text.trim is not a function"

  /**
   * `parseJsonResponse`. `Ok(Null)` is its `null`; a falsy reply, a reply
   * without a braced span and a span `JSON.parse` rejects all give it. A
   * truthy reply that is not a string makes `.trim()` throw.
   */
  function ParseJsonResponse(text: Value, parse: string -> ParseOutcome): (r: Result<Value>)
    ensures !Truthy(text) ==> r == Ok(Null)
    ensures Truthy(text) && !text.Str? ==> r == Err(TrimTypeError)
    ensures text.Str? ==> r.Ok?
  {
    if !Truthy(text) then Ok(Null)
    else if !text.Str? then Err(TrimTypeError)
    else
      Ok(ParseSpan(Cleaned(Trim(text.s)), parse))
  }

  /** The trimmed reply after both fence replacements. */
  function Cleaned(t: string): string {
    t[Unfenced(t).0..Unfenced(t).1]
  }

  /** What `JSON.parse` of the braced span of the trimmed reply gives, with a syntax error read as `null`. */
  function ParseSpan(t: string, parse: string -> ParseOutcome): Value {
    match BraceSpan(t)
    case None => Null
    case Some(span) =>
      match parse(span)
      case Parsed(v) => v
      case SyntaxError(_) => Null
  }

  /**
   * Removing the fences never moves the span: the text handed to `JSON.parse`
   * is the span from the first `{` to the last `}` of the trimmed reply.
   */
  lemma ParsesSpanOfTrimmed(s: string, parse: string -> ParseOutcome)
    requires s != ""
    ensures ParseJsonResponse(Str(s), parse) == Ok(ParseSpan(Trim(s), parse))
  {
    var t := Trim(s);
    UnfencedFree(t);
    SpanOfSlice(t, Unfenced(t).0, Unfenced(t).1);
  }

  lemma SpanOfSlice(t: string, a: nat, b: nat)
    requires a <= b <= |t| && NoBrace(t[..a]) && NoBrace(t[b..])
    ensures BraceSpan(t[a..b]) == BraceSpan(t)
  {
    var m := t[a..b];
    var i, j := IndexOf(m, '{'), LastIndexOf(m, '}');
    IndexOfSlice(t, a, b, '{');
    LastIndexOfSlice(t, a, b, '}');
    assert IndexOf(t, '{') == if i >= 0 then a + i else -1;
    assert LastIndexOf(t, '}') == if j >= 0 then a + j else -1;
    SpanShift(t, a, b, i, j);
  }

  lemma SpanShift(t: string, a: nat, b: nat, i: int, j: int)
    requires a <= b <= |t| && -1 <= i < b - a && -1 <= j < b - a
    requires i >= 0 ==> t[a..b][i] == '{'
    requires j >= 0 ==> t[a..b][j] == '}'
    ensures SpanAt(t[a..b], i, j) == SpanAt(t, if i >= 0 then a + i else -1, if j >= 0 then a + j else -1)
  {
    if i >= 0 && j > i {
      SliceOfSlice(t, a, b, i, j + 1);
    }
  }

  lemma SliceOfSlice(t: string, a: nat, b: nat, i: nat, j: nat)
    requires a <= b <= |t| && i <= j <= b - a
    ensures t[a..b][i..j] == t[a + i..a + j]
  {
    forall k | 0 <= k < j - i ensures t[a..b][i..j][k] == t[a + i..a + j][k] {
      assert t[a..b][i + k] == t[a + i + k];
    }
  }

  lemma IndexOfSlice(t: string, a: nat, b: nat, c: char)
    requires a <= b <= |t| && c !in t[..a] && c !in t[b..]
    ensures var i := IndexOf(t[a..b], c); IndexOf(t, c) == if i >= 0 then a + i else -1
  {
    var m := t[a..b];
    var i := IndexOf(m, c);
    if i >= 0 {
      assert t[a + i] == m[i];
      assert t[..a + i] == t[..a] + m[..i];
      IndexOfUnique(t, c, a + i);
    } else {
      AbsentFromSlices(t, a, b, c);
    }
  }

  lemma LastIndexOfSlice(t: string, a: nat, b: nat, c: char)
    requires a <= b <= |t| && c !in t[..a] && c !in t[b..]
    ensures var j := LastIndexOf(t[a..b], c); LastIndexOf(t, c) == if j >= 0 then a + j else -1
  {
    var j := LastIndexOf(t[a..b], c);
    if j >= 0 {
      NoneAfter(t, a, b, c, j);
      LastIndexOfUnique(t, c, a + j);
    } else {
      AbsentFromSlices(t, a, b, c);
    }
  }

  /** A character missing from all three pieces of `t` is missing from `t`. */
  lemma AbsentFromSlices(t: string, a: nat, b: nat, c: char)
    requires a <= b <= |t| && c !in t[..a] && c !in t[a..b] && c !in t[b..]
    ensures c !in t
  {
    assert t == t[..a] + t[a..b] + t[b..];
  }

  /** The last `c` of the middle piece is the last `c` of `t`. */
  lemma NoneAfter(t: string, a: nat, b: nat, c: char, j: nat)
    requires a <= b <= |t| && c !in t[b..] && j < b - a
    requires t[a..b][j] == c && c !in t[a..b][j + 1..]
    ensures t[a + j] == c && forall q :: a + j < q < |t| ==> t[q] != c
  {
    var m := t[a..b];
    forall q | a + j < q < |t| ensures t[q] != c {
      if q < b {
        assert m[j + 1..][q - a - j - 1] == t[q];
      } else {
        assert t[b..][q - b] == t[q];
      }
    }
  }

  /** A reply whose trimmed text lacks a `{` or a `}` yields `null`, never an exception. */
  lemma NoSpanIsNull(s: string, parse: string -> ParseOutcome)
    requires s != ""
    requires '{' !in Trim(s) || '}' !in Trim(s)
    ensures ParseJsonResponse(Str(s), parse) == Ok(Null)
  {
    ParsesSpanOfTrimmed(s, parse);
  }

  /** A span `JSON.parse` rejects is read as `null`. */
  lemma SyntaxErrorIsNull(s: string, parse: string -> ParseOutcome)
    requires s != ""
    requires BraceSpan(Trim(s)).Some? && parse(BraceSpan(Trim(s)).value).SyntaxError?
    ensures ParseJsonResponse(Str(s), parse) == Ok(Null)
  {
    ParsesSpanOfTrimmed(s, parse);
  }

  // ----- normalizeExtraction -----

  /** `o?.[k]` for each key, in order. */
  function Lookup(o: Value, keys: seq<string>): (vs: seq<Value>)
    ensures |vs| == |keys| && forall i :: 0 <= i < |keys| ==> vs[i] == Get(o, keys[i])
  {
    seq(|keys|, i requires 0 <= i < |keys| => Get(o, keys[i]))
  }

  /** `o.k1 ?? o.k2 ?? ... ?? last`. */
  function Pick(o: Value, keys: seq<string>, last: Value): (r: Value)
    ensures !IsNullish(r) || r == last
  {
    FirstDefined(Lookup(o, keys), last)
  }

  /** Synonyms resolve left to right: the first key whose value is not `null`/`undefined` wins. */
  lemma PickLeftmost(o: Value, keys: seq<string>, last: Value, k: nat)
    requires k < |keys| && !IsNullish(Get(o, keys[k]))
    requires forall j :: 0 <= j < k ==> IsNullish(Get(o, keys[j]))
    ensures Pick(o, keys, last) == Get(o, keys[k])
  {
    FirstDefinedPicksLeftmost(Lookup(o, keys), last, k);
  }

  /** When no synonym is set the default is taken. */
  lemma PickDefault(o: Value, keys: seq<string>, last: Value)
    requires forall j :: 0 <= j < |keys| ==> IsNullish(Get(o, keys[j]))
    ensures Pick(o, keys, last) == last
  {
    FirstDefinedAllNullish(Lookup(o, keys), last);
  }

  /** An empty string under the first synonym is kept: only `null` and `undefined` fall through. */
  lemma PickKeepsEmpty(o: Value, keys: seq<string>, last: Value)
    requires |keys| > 0 && Get(o, keys[0]) == Str("")
    ensures Pick(o, keys, last) == Str("")
  {
    PickLeftmost(o, keys, last, 0);
  }

  /** `raw.vendor && raw.invoice`: the reply already has the nested shape. */
  predicate IsStructured(raw: Value) {
    Truthy(Get(raw, "vendor")) && Truthy(Get(raw, "invoice"))
  }

  const StructuredPoKeys: seq<string> := ["purchaseOrderNumber", "poNumber", "po", "purchaseOrder"]
  const FlatPoKeys: seq<string> := ["purchaseOrderNumber", "poNumber", "po_number", "po", "purchaseOrder", "purchase_order"]
  const FlatTotalKeys: seq<string> := ["totalAmount", "total", "amount"]
  const FlatItemKeys: seq<string> := ["lineItems", "items", "lines"]

  /** No text field of the record is `undefined`: each defaults to `null`, the flat line items to `[]`. */
  predicate FieldsDefined(x: Extraction) {
    && !x.vendor.name.Undef? && !x.vendor.taxId.Undef? && !x.vendor.address.Undef?
    && !x.invoice.invoiceNumber.Undef? && !x.invoice.purchaseOrderNumber.Undef?
    && !x.invoice.invoiceType.Undef? && !x.invoice.invoiceDate.Undef?
    && !x.invoice.dueDate.Undef? && !x.invoice.currency.Undef?
    && !IsNullish(x.lineItems)
  }

  /**
   * `normalizeExtraction`. The source reads `raw.vendor`, which throws on
   * `null` and `undefined`; its one caller passes a truthy value.
   */
  function Normalize(raw: Value): (r: Extraction)
    requires !IsNullish(raw)
    ensures r.meta == None && FieldsDefined(r)
    ensures IsStructured(raw) ==> r.lineItems.Arr?
    ensures IsStructured(raw) && Get(raw, "lineItems").Arr? ==> r.lineItems == Get(raw, "lineItems")
    ensures IsStructured(raw) && !Get(raw, "lineItems").Arr? ==> r.lineItems == Arr([])
  {
    if IsStructured(raw) then NormalizeNested(raw) else NormalizeFlat(raw)
  }

  /** The nested branch: fields are read from `raw.vendor` and `raw.invoice`. */
  function NormalizeNested(raw: Value): (r: Extraction)
    ensures r.meta == None && FieldsDefined(r)
    ensures r.lineItems == (if Get(raw, "lineItems").Arr? then Get(raw, "lineItems") else Arr([]))
  {
    var v := Get(raw, "vendor");
    var h := Get(raw, "invoice");
    Extraction(
      Vendor(Pick(v, ["name"], Null), Pick(v, ["taxId"], Null), Pick(v, ["address"], Null)),
      Header(
        Pick(h, ["invoiceNumber"], Null),
        Pick(h, StructuredPoKeys, Null),
        Pick(h, ["invoiceType", "type"], Null),
        Pick(h, ["invoiceDate"], Null),
        Pick(h, ["dueDate"], Null),
        Pick(h, ["currency"], Null),
        ParseNumber(Get(h, "totalAmount")),
        ParseNumber(Get(h, "taxAmount"))),
      if Get(raw, "lineItems").Arr? then Get(raw, "lineItems") else Arr([]),
      None)
  }

  /** The flat branch: every field is looked up under its synonyms at the top level. */
  function NormalizeFlat(raw: Value): (r: Extraction)
    ensures r.meta == None && FieldsDefined(r)
  {
    Extraction(
      Vendor(
        Pick(raw, ["vendorName", "vendor_name", "supplierName", "name"], Null),
        Pick(raw, ["taxId", "vatNumber", "vat"], Null),
        Pick(raw, ["vendorAddress", "address"], Null)),
      Header(
        Pick(raw, ["invoiceNumber", "invoice_number", "number"], Null),
        Pick(raw, FlatPoKeys, Null),
        Pick(raw, ["invoiceType", "invoice_type", "type"], Null),
        Pick(raw, ["invoiceDate", "invoice_date", "date"], Null),
        Pick(raw, ["dueDate", "due_date"], Null),
        Pick(raw, ["currency"], Null),
        ParseNumber(Pick(raw, FlatTotalKeys, Undef)),
        ParseNumber(Pick(raw, ["taxAmount", "tax", "vat"], Undef))),
      Pick(raw, FlatItemKeys, Arr([])),
      None)
  }

  /** In the nested shape the purchase-order number is the first set synonym under `invoice`. */
  lemma StructuredPurchaseOrder(raw: Value, k: nat)
    requires IsStructured(raw) && k < |StructuredPoKeys|
    requires !IsNullish(Get(Get(raw, "invoice"), StructuredPoKeys[k]))
    requires forall j :: 0 <= j < k ==> IsNullish(Get(Get(raw, "invoice"), StructuredPoKeys[j]))
    ensures Normalize(raw).invoice.purchaseOrderNumber == Get(Get(raw, "invoice"), StructuredPoKeys[k])
  {
    PickLeftmost(Get(raw, "invoice"), StructuredPoKeys, Null, k);
  }

  /** In the flat shape the purchase-order number is the first set synonym of the top level. */
  lemma FlatPurchaseOrder(raw: Value, k: nat)
    requires !IsNullish(raw) && !IsStructured(raw) && k < |FlatPoKeys|
    requires !IsNullish(Get(raw, FlatPoKeys[k]))
    requires forall j :: 0 <= j < k ==> IsNullish(Get(raw, FlatPoKeys[j]))
    ensures Normalize(raw).invoice.purchaseOrderNumber == Get(raw, FlatPoKeys[k])
  {
    PickLeftmost(raw, FlatPoKeys, Null, k);
  }

  /** In the flat shape the total is `parseNumber` of the first set synonym. */
  lemma FlatTotal(raw: Value, k: nat)
    requires !IsNullish(raw) && !IsStructured(raw) && k < |FlatTotalKeys|
    requires !IsNullish(Get(raw, FlatTotalKeys[k]))
    requires forall j :: 0 <= j < k ==> IsNullish(Get(raw, FlatTotalKeys[j]))
    ensures Normalize(raw).invoice.totalAmount == ParseNumber(Get(raw, FlatTotalKeys[k]))
  {
    PickLeftmost(raw, FlatTotalKeys, Undef, k);
  }

  /** In the flat shape the line items are the first set synonym, whatever its type. */
  lemma FlatLineItems(raw: Value, k: nat)
    requires !IsNullish(raw) && !IsStructured(raw) && k < |FlatItemKeys|
    requires !IsNullish(Get(raw, FlatItemKeys[k]))
    requires forall j :: 0 <= j < k ==> IsNullish(Get(raw, FlatItemKeys[j]))
    ensures Normalize(raw).lineItems == Get(raw, FlatItemKeys[k])
  {
    PickLeftmost(raw, FlatItemKeys, Arr([]), k);
  }

  /** The flat shape does not check for an array: `{"items": "x"}` keeps the string. */
  lemma FlatLineItemsNotArray()
    ensures !Normalize(Obj(map["items" := Str("x")])).lineItems.Arr?
  {
    var raw := Obj(map["items" := Str("x")]);
    assert !IsStructured(raw);
    FlatLineItems(raw, 1);
  }
}
