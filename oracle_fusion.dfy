/**
 * The Oracle Fusion Cloud Payables mapping of backend/src/shared/oracle-fusion.ts:
 * `transformToOracleFusion` turns a stored extraction (any JSON value) into a
 * `payablesInterfaceInvoices` record, `buildDistributionCombination` builds the
 * accounting segment string of one line, and `validateOracleFusionInvoice` lists
 * the required fields that are missing, in a fixed order.
 *
 * The clock is a parameter: `now` is the ISO timestamp `new Date().toISOString()`
 * would return.
 */
module OracleFusion {
  import opened Wrappers
  import opened Strings
  import opened Json

  /** One entry of `supplierMapping`; an optional field that is absent is `Undef`. */
  datatype SupplierDetails = SupplierDetails(supplierId: Value, supplierNumber: Value, supplierSite: Value)

  /** `defaultDistribution`; an optional segment that is absent is `Undef`. */
  datatype Distribution = Distribution(account: Value, costCenter: Value, department: Value)

  datatype Config = Config(
    source: string,
    businessUnit: string,
    defaultInvoiceType: string,
    supplierMapping: map<string, SupplierDetails>,
    defaultDistribution: Option<Distribution>)

  /** One accounting distribution of a line. */
  datatype DistributionLine = DistributionLine(
    number: nat, lineType: string, amount: Value, combination: Option<string>)

  datatype Line = Line(
    lineNumber: Value, lineType: string, lineAmount: Value,
    description: Value, quantity: Value, unitPrice: Value,
    distributions: seq<DistributionLine>)

  /**
   * An `OracleFusionInvoice`. Fields copied from the extraction keep their JSON
   * value (`Undef` where the property is undefined); `lines` is `None` when the
   * property is never assigned.
   */
  datatype FusionInvoice = FusionInvoice(
    source: string,
    invoiceNumber: Value,
    invoiceAmount: Value,
    invoiceDate: Value,
    invoiceCurrency: Value,
    invoiceType: Value,
    businessUnit: string,
    glDate: Value,
    description: Value,
    paymentTerms: Value,
    receivedDate: Value,
    supplier: Value,
    supplierNumber: Value,
    supplierId: Value,
    supplierSite: Value,
    lines: Option<seq<Line>>)

  /** The `TypeError` of reading property `key` of `null` or `undefined`. */
  function ReadError(v: Value, key: string): string {
    "Cannot read properties of " + (if v.Null? then "null" else "undefined") + " (reading '" + key + "')"
  }

  /** The `TypeError` of calling `split` on a `receivedAt` that is not a string. */
  const SplitError := "extractedInvoice.meta?.receivedAt?.split is not a function"

  /** `s.split("T")[0]`: the longest prefix of `s` without a `T`. */
  function DatePart(s: string): (r: string)
    ensures r <= s
    ensures 'T' !in r
    ensures |r| < |s| ==> s[|r|] == 'T'
  {
    Split(s, 'T')[0]
  }

  /** `config.supplierMapping[vendorName] || {}`: a missing name yields an entry with no fields. */
  function SupplierFor(cfg: Config, name: string): SupplierDetails {
    if name in cfg.supplierMapping then cfg.supplierMapping[name] else SupplierDetails(Undef, Undef, Undef)
  }

  /** `config.defaultDistribution?.<segment>` for the three segments. */
  function DefaultSegments(cfg: Config): Distribution {
    if cfg.defaultDistribution.Some? then cfg.defaultDistribution.value else Distribution(Undef, Undef, Undef)
  }

  /** `v || fallback` rendered as a segment of the joined string. */
  function Segment(v: Value, fallback: string): string {
    ToJsString(OrElse(v, Str(fallback)))
  }

  /** Every segment `segments.join` converts (`v || fallback`) converts without throwing. */
  predicate SegmentsConvert(costCenter: Value, account: Value, department: Value) {
    Convertible(OrElse(costCenter, Str("000")))
    && Convertible(OrElse(account, Str("0000")))
    && Convertible(OrElse(department, Str("000")))
  }

  /**
   * `buildDistributionCombination`: each segment is the line's own value when
   * truthy, else the configured default; with all three falsy there is no
   * combination, otherwise it is `costCenter-account-department` with the
   * defaults `000`, `0000` and `000`. `Err` is the `TypeError` of `join` on a
   * segment that does not convert.
   */
  function Combination(line: Value, cfg: Config): (r: Result<Option<string>>)
  {
    var d := DefaultSegments(cfg);
    var account := OrElse(Get(line, "account"), d.account);
    var costCenter := OrElse(Get(line, "costCenter"), d.costCenter);
    var department := OrElse(Get(line, "department"), d.department);
    if !Truthy(account) && !Truthy(costCenter) && !Truthy(department) then Ok(None)
    else if !SegmentsConvert(costCenter, account, department) then Err(ConversionError)
    else Ok(Some(Join([Segment(costCenter, "000"), Segment(account, "0000"), Segment(department, "000")], "-")))
  }

  /** The line built for the item at position `index` of `lineItems`, once its combination is built. */
  function LineOf(item: Value, index: nat, cfg: Config): Line
    requires Combination(item, cfg).Ok?
  {
    var amount := OrElse(Get(item, "amount"), Num(Decimal(0, 0)));
    Line(
      OrElse(Get(item, "lineNumber"), Num(Decimal(index + 1, 0))), "Item", amount,
      Get(item, "description"), Get(item, "quantity"), Get(item, "unitPrice"),
      [DistributionLine(1, "Item", amount, Combination(item, cfg).value)])
  }

  /**
   * The callback of `lineItems.map` throws on `item`: reading `line.lineNumber`
   * of `null` or `undefined`, or joining a segment that does not convert.
   */
  predicate LineFails(item: Value, cfg: Config) {
    IsNullish(item) || Combination(item, cfg).Err?
  }

  /** The message of the `TypeError` the callback throws on `item`. */
  function LineError(item: Value, cfg: Config): string {
    if IsNullish(item) then ReadError(item, "lineNumber") else ConversionError
  }

  /**
   * `lineItems.map(...)` over `items`, whose first element sits at position
   * `from` of the array; the first item the callback throws on ends it.
   */
  function MapLines(items: seq<Value>, from: nat, cfg: Config): (r: Result<seq<Line>>)
    ensures r.Ok? <==> forall k :: 0 <= k < |items| ==> !LineFails(items[k], cfg)
    ensures r.Ok? ==> |r.value| == |items|
    decreases |items|
  {
    if items == [] then Ok([])
    else if LineFails(items[0], cfg) then Err(LineError(items[0], cfg))
    else
      var rest := MapLines(items[1..], from + 1, cfg);
      if rest.Err? then Err(rest.message) else Ok([LineOf(items[0], from, cfg)] + rest.value)
  }

  /** The line at position `k` is built from the item at `k`, numbered by its place in the whole array. */
  lemma {:induction false} MapLinesAt(items: seq<Value>, from: nat, cfg: Config, k: nat)
    requires MapLines(items, from, cfg).Ok? && k < |items|
    ensures MapLines(items, from, cfg).value[k] == LineOf(items[k], from + k, cfg)
    decreases k
  {
    MapLinesCons(items, from, cfg);
    if k > 0 {
      assert items[1..][k - 1] == items[k] && from + 1 + (k - 1) == from + k;
      MapLinesAt(items[1..], from + 1, cfg, k - 1);
    }
  }

  /** A successful map is the head's line followed by the tail's lines. */
  lemma MapLinesCons(items: seq<Value>, from: nat, cfg: Config)
    requires MapLines(items, from, cfg).Ok? && |items| > 0
    ensures MapLines(items, from, cfg).value == [LineOf(items[0], from, cfg)] + MapLines(items[1..], from + 1, cfg).value
  {
  }

  /** A failed map reports the `TypeError` of the first item the callback throws on. */
  lemma {:induction false} MapLinesError(items: seq<Value>, from: nat, cfg: Config)
    requires MapLines(items, from, cfg).Err?
    ensures exists k :: 0 <= k < |items| && FirstFailing(items, k, cfg)
              && MapLines(items, from, cfg).message == LineError(items[k], cfg)
    decreases |items|
  {
    if LineFails(items[0], cfg) {
      assert FirstFailing(items, 0, cfg);
    } else {
      MapLinesError(items[1..], from + 1, cfg);
      FirstFailingShift(items, cfg, MapLines(items, from, cfg).message);
    }
  }

  /** `items[k]` is the first item the callback throws on. */
  predicate FirstFailing(items: seq<Value>, k: nat, cfg: Config) {
    k < |items| && LineFails(items[k], cfg) && forall j :: 0 <= j < k ==> !LineFails(items[j], cfg)
  }

  /** The first failing item of the tail, behind a head that maps, is the first of the whole list. */
  lemma FirstFailingShift(items: seq<Value>, cfg: Config, msg: string)
    requires |items| > 0 && !LineFails(items[0], cfg)
    requires exists k :: 0 <= k < |items| - 1 && FirstFailing(items[1..], k, cfg) && msg == LineError(items[1..][k], cfg)
    ensures exists k :: 0 <= k < |items| && FirstFailing(items, k, cfg) && msg == LineError(items[k], cfg)
  {
    var k :| 0 <= k < |items| - 1 && FirstFailing(items[1..], k, cfg) && msg == LineError(items[1..][k], cfg);
    assert items[k + 1] == items[1..][k];
    forall j | 0 < j < k + 1
      ensures !LineFails(items[j], cfg)
    {
      assert items[j] == items[1..][j - 1];
    }
    assert FirstFailing(items, k + 1, cfg);
  }

  /** `extractedInvoice.meta?.receivedAt?.split("T")[0]`. */
  function ReceivedDate(x: Value): Result<Value> {
    var at := Get(Get(x, "meta"), "receivedAt");
    if IsNullish(at) then Ok(Undef)
    else if at.Str? then Ok(Str(DatePart(at.s)))
    else Err(SplitError)
  }

  /** The record built before the line items are considered. */
  function HeaderOf(x: Value, cfg: Config, now: string, received: Value): FusionInvoice {
    var vendor := Get(x, "vendor");
    var inv := Get(x, "invoice");
    var vendorName := OrElse(Get(vendor, "name"), Str(""));
    var supplier := SupplierFor(cfg, ToJsString(vendorName));
    FusionInvoice(
      cfg.source,
      OrElse(Get(inv, "invoiceNumber"), Str("")),
      OrElse(Get(inv, "totalAmount"), Num(Decimal(0, 0))),
      OrElse(Get(inv, "invoiceDate"), Str("")),
      OrElse(Get(inv, "currency"), Str("USD")),
      OrElse(Get(inv, "invoiceType"), Str(cfg.defaultInvoiceType)),
      cfg.businessUnit,
      OrElse(Get(inv, "invoiceDate"), Str(DatePart(now))),
      Get(inv, "description"),
      Get(inv, "paymentTerms"),
      received,
      vendorName,
      supplier.supplierNumber,
      supplier.supplierId,
      OrElse(supplier.supplierSite, Get(vendor, "site")),
      None)
  }

  /** `vendor?.name || ""`, the supplier name and the key of the mapping lookup. */
  function VendorName(x: Value): Value {
    OrElse(Get(Get(x, "vendor"), "name"), Str(""))
  }

  /**
   * `transformToOracleFusion`. `Err` is the `TypeError` it throws, in the
   * order the source meets them: on a `null`/`undefined` extraction, on a
   * vendor name that does not convert to a property key, on a `receivedAt`
   * that is not a string, and on the first line item the callback throws on.
   */
  function Transform(x: Value, cfg: Config, now: string): Result<FusionInvoice> {
    if IsNullish(x) then Err(ReadError(x, "vendor"))
    else if !Convertible(VendorName(x)) then Err(ConversionError)
    else
      var received := ReceivedDate(x);
      if received.Err? then Err(received.message)
      else
        var header := HeaderOf(x, cfg, now, received.value);
        var items := Get(x, "lineItems");
        if !items.Arr? then Ok(header)
        else
          var lines := MapLines(items.items, 0, cfg);
          if lines.Err? then Err(lines.message) else Ok(header.(lines := Some(lines.value)))
  }

  // ---------------------------------------------------------------------------
  // Properties of the transform
  // ---------------------------------------------------------------------------

  /**
   * The transform throws exactly on a nullish extraction, a vendor name that
   * does not convert, a non-string `receivedAt`, or a line item that is
   * nullish or has a segment that does not convert.
   */
  lemma TransformFailsIff(x: Value, cfg: Config, now: string)
    ensures Transform(x, cfg, now).Err? <==>
      IsNullish(x) ||
      !Convertible(VendorName(x)) ||
      (var at := Get(Get(x, "meta"), "receivedAt"); !IsNullish(at) && !at.Str?) ||
      (Get(x, "lineItems").Arr? && exists k :: 0 <= k < |Get(x, "lineItems").items| && LineFails(Get(x, "lineItems").items[k], cfg))
  {
  }

  /** A vendor name that is an object with its own `toString` key fails the lookup with `ConversionError`. */
  lemma ObjectVendorRejected(x: Value, cfg: Config, now: string, m: map<string, Value>)
    requires !IsNullish(x) && Get(Get(x, "vendor"), "name") == Obj(m) && "toString" in m
    ensures Transform(x, cfg, now) == Err(ConversionError)
  {
    ConvertibleCases(Null, m);
  }

  /** Header fields: configuration values, and the `||` defaults of the invoice fields. */
  predicate HeaderDefaulted(out: FusionInvoice, x: Value, cfg: Config, now: string) {
    var inv := Get(x, "invoice");
    && out.source == cfg.source
    && out.businessUnit == cfg.businessUnit
    && (Truthy(Get(inv, "invoiceNumber")) ==> out.invoiceNumber == Get(inv, "invoiceNumber"))
    && (!Truthy(Get(inv, "invoiceNumber")) ==> out.invoiceNumber == Str(""))
    && (Truthy(Get(inv, "totalAmount")) ==> out.invoiceAmount == Get(inv, "totalAmount"))
    && (!Truthy(Get(inv, "totalAmount")) ==> out.invoiceAmount == Num(Decimal(0, 0)))
    && (Truthy(Get(inv, "invoiceDate")) ==> out.invoiceDate == Get(inv, "invoiceDate") && out.glDate == out.invoiceDate)
    && (!Truthy(Get(inv, "invoiceDate")) ==> out.invoiceDate == Str("") && out.glDate == Str(DatePart(now)))
    && (Truthy(Get(inv, "currency")) ==> out.invoiceCurrency == Get(inv, "currency"))
    && (!Truthy(Get(inv, "currency")) ==> out.invoiceCurrency == Str("USD"))
    && (Truthy(Get(inv, "invoiceType")) ==> out.invoiceType == Get(inv, "invoiceType"))
    && (!Truthy(Get(inv, "invoiceType")) ==> out.invoiceType == Str(cfg.defaultInvoiceType))
    && out.description == Get(inv, "description")
    && out.paymentTerms == Get(inv, "paymentTerms")
  }

  lemma HeaderDefaults(x: Value, cfg: Config, now: string)
    requires Transform(x, cfg, now).Ok?
    ensures HeaderDefaulted(Transform(x, cfg, now).value, x, cfg, now)
  {
    TransformHeader(x, cfg, now);
    HeaderOfDefaulted(x, cfg, now, ReceivedDate(x).value, Transform(x, cfg, now).value.lines);
  }

  lemma HeaderOfDefaulted(x: Value, cfg: Config, now: string, received: Value, lines: Option<seq<Line>>)
    ensures HeaderDefaulted(HeaderOf(x, cfg, now, received).(lines := lines), x, cfg, now)
  {
  }

  /**
   * The supplier fields: `Supplier` is the vendor name (or ""), the Oracle ids
   * come from the mapping entry of exactly that name, and the site falls back
   * to the vendor's own.
   */
  predicate SupplierMapped(out: FusionInvoice, x: Value, cfg: Config) {
    var vendor := Get(x, "vendor");
    var name := OrElse(Get(vendor, "name"), Str(""));
    && out.supplier == name
    && (ToJsString(name) in cfg.supplierMapping ==>
          var e := cfg.supplierMapping[ToJsString(name)];
          out.supplierNumber == e.supplierNumber && out.supplierId == e.supplierId
          && out.supplierSite == OrElse(e.supplierSite, Get(vendor, "site")))
    && (ToJsString(name) !in cfg.supplierMapping ==>
          out.supplierNumber == Undef && out.supplierId == Undef && out.supplierSite == Get(vendor, "site"))
  }

  lemma SupplierLookup(x: Value, cfg: Config, now: string)
    requires Transform(x, cfg, now).Ok?
    ensures SupplierMapped(Transform(x, cfg, now).value, x, cfg)
  {
    TransformHeader(x, cfg, now);
    HeaderOfSupplier(x, cfg, now, ReceivedDate(x).value, Transform(x, cfg, now).value.lines);
  }

  lemma HeaderOfSupplier(x: Value, cfg: Config, now: string, received: Value, lines: Option<seq<Line>>)
    ensures SupplierMapped(HeaderOf(x, cfg, now, received).(lines := lines), x, cfg)
  {
  }

  /** `InvoiceReceivedDate` is the part of `meta.receivedAt` before its first `T`. */
  lemma ReceivedDateIsDatePart(x: Value, cfg: Config, now: string)
    requires Transform(x, cfg, now).Ok?
    ensures var out := Transform(x, cfg, now).value; var at := Get(Get(x, "meta"), "receivedAt");
      && (IsNullish(at) ==> out.receivedDate == Undef)
      && (at.Str? ==> out.receivedDate.Str? && out.receivedDate.s <= at.s && 'T' !in out.receivedDate.s
                      && (|out.receivedDate.s| < |at.s| ==> at.s[|out.receivedDate.s|] == 'T'))
  {
    TransformHeader(x, cfg, now);
    assert Transform(x, cfg, now).value.receivedDate == ReceivedDate(x).value;
  }

  /**
   * The line built for `item` at position `k`: its own or its 1-based position
   * as number, type `Item`, the amount or 0, the item's description, quantity
   * and unit price, and exactly one distribution numbered 1 of type `Item`
   * whose amount is the line's.
   */
  predicate LineFollowsItem(line: Line, item: Value, k: nat, cfg: Config) {
    && Combination(item, cfg).Ok?
    && line.lineType == "Item"
    && (Truthy(Get(item, "lineNumber")) ==> line.lineNumber == Get(item, "lineNumber"))
    && (!Truthy(Get(item, "lineNumber")) ==> line.lineNumber == Num(Decimal(k + 1, 0)))
    && (Truthy(Get(item, "amount")) ==> line.lineAmount == Get(item, "amount"))
    && (!Truthy(Get(item, "amount")) ==> line.lineAmount == Num(Decimal(0, 0)))
    && line.description == Get(item, "description")
    && line.quantity == Get(item, "quantity")
    && line.unitPrice == Get(item, "unitPrice")
    && |line.distributions| == 1
    && line.distributions[0].number == 1
    && line.distributions[0].lineType == "Item"
    && line.distributions[0].amount == line.lineAmount
    && line.distributions[0].combination == Combination(item, cfg).value
  }

  lemma LineOfFollowsItem(item: Value, k: nat, cfg: Config)
    requires Combination(item, cfg).Ok?
    ensures LineFollowsItem(LineOf(item, k, cfg), item, k, cfg)
  {
  }

  /** `lines` of a successful transform is the map over `lineItems` when that is an array, and absent otherwise. */
  lemma TransformLines(x: Value, cfg: Config, now: string)
    requires Transform(x, cfg, now).Ok?
    ensures var out := Transform(x, cfg, now).value; var items := Get(x, "lineItems");
      && (out.lines.Some? <==> items.Arr?)
      && (items.Arr? ==> MapLines(items.items, 0, cfg).Ok? && out.lines.value == MapLines(items.items, 0, cfg).value)
  {
  }

  /** `lines` is present exactly when `lineItems` is an array, with one line per item in order. */
  lemma LinesFollowItems(x: Value, cfg: Config, now: string)
    requires Transform(x, cfg, now).Ok?
    ensures var out := Transform(x, cfg, now).value; var items := Get(x, "lineItems");
      && (out.lines.Some? <==> items.Arr?)
      && (items.Arr? ==>
            && |out.lines.value| == |items.items|
            && forall k :: 0 <= k < |items.items| ==> LineFollowsItem(out.lines.value[k], items.items[k], k, cfg))
  {
    TransformLines(x, cfg, now);
    var items := Get(x, "lineItems");
    if items.Arr? {
      MappedLinesFollow(items.items, cfg);
    }
  }

  /** Every line of a successful map over the whole array follows its item. */
  lemma MappedLinesFollow(items: seq<Value>, cfg: Config)
    requires MapLines(items, 0, cfg).Ok?
    ensures forall k :: 0 <= k < |items| ==> LineFollowsItem(MapLines(items, 0, cfg).value[k], items[k], k, cfg)
  {
    forall k | 0 <= k < |items|
      ensures LineFollowsItem(MapLines(items, 0, cfg).value[k], items[k], k, cfg)
    {
      MapLinesAt(items, 0, cfg, k);
      LineOfFollowsItem(items[k], k, cfg);
    }
  }

  // ---------------------------------------------------------------------------
  // Properties of the distribution combination
  // ---------------------------------------------------------------------------

  /** There is no combination exactly when every segment is falsy after line-over-config precedence. */
  lemma CombinationAbsentIff(line: Value, cfg: Config)
    ensures var d := DefaultSegments(cfg);
      Combination(line, cfg) == Ok(None) <==>
        !Truthy(OrElse(Get(line, "account"), d.account))
        && !Truthy(OrElse(Get(line, "costCenter"), d.costCenter))
        && !Truthy(OrElse(Get(line, "department"), d.department))
  {
  }

  /** A cost centre that is an object with its own `toString` key makes `join` throw, whatever the configuration. */
  lemma ObjectSegmentRejected(line: Value, cfg: Config, m: map<string, Value>)
    requires Get(line, "costCenter") == Obj(m) && "toString" in m
    ensures Combination(line, cfg) == Err(ConversionError)
  {
    ConvertibleCases(Null, m);
  }

  /**
   * When the effective segments are strings without `-`, splitting the
   * combination at `-` gives back cost centre, account and department, each
   * replaced by its default where falsy; a truthy line value beats the
   * configured one.
   */
  lemma CombinationSegments(line: Value, cfg: Config, costCenter: string, account: string, department: string)
    requires var d := DefaultSegments(cfg);
      && Segment(OrElse(Get(line, "costCenter"), d.costCenter), "000") == costCenter
      && Segment(OrElse(Get(line, "account"), d.account), "0000") == account
      && Segment(OrElse(Get(line, "department"), d.department), "000") == department
    requires '-' !in costCenter && '-' !in account && '-' !in department
    requires Combination(line, cfg).Ok? && Combination(line, cfg).value.Some?
    ensures Split(Combination(line, cfg).value.value, '-') == [costCenter, account, department]
  {
    assert Combination(line, cfg).value.value == Join([costCenter, account, department], "-");
    JoinThree(costCenter, account, department, "-");
    SplitThree(costCenter, account, department, '-');
  }

  // ---------------------------------------------------------------------------
  // Validation
  // ---------------------------------------------------------------------------

  /** The checks of `validateOracleFusionInvoice`, in the order they run. */
  datatype Missing =
    | SourceMissing
    | NumberMissing
    | AmountMissing
    | DateMissing
    | CurrencyMissing
    | BusinessUnitMissing
    | SupplierMissing

  function Rank(m: Missing): nat {
    match m
    case SourceMissing => 0
    case NumberMissing => 1
    case AmountMissing => 2
    case DateMissing => 3
    case CurrencyMissing => 4
    case BusinessUnitMissing => 5
    case SupplierMissing => 6
  }

  function Message(m: Missing): string {
    match m
    case SourceMissing => "Source is required"
    case NumberMissing => "InvoiceNumber is required"
    case AmountMissing => "InvoiceAmount is required"
    case DateMissing => "InvoiceDate is required"
    case CurrencyMissing => "InvoiceCurrency is required"
    case BusinessUnitMissing => "BusinessUnit is required"
    case SupplierMissing => "Supplier identification required (Supplier, SupplierNumber, or SupplierId)"
  }

  /** Whether check `m` fails on `inv`: falsiness everywhere except the amount, which only rejects null and undefined. */
  predicate Fails(inv: FusionInvoice, m: Missing) {
    match m
    case SourceMissing => inv.source == ""
    case NumberMissing => !Truthy(inv.invoiceNumber)
    case AmountMissing => IsNullish(inv.invoiceAmount)
    case DateMissing => !Truthy(inv.invoiceDate)
    case CurrencyMissing => !Truthy(inv.invoiceCurrency)
    case BusinessUnitMissing => inv.businessUnit == ""
    case SupplierMissing => !Truthy(inv.supplier) && !Truthy(inv.supplierNumber) && !Truthy(inv.supplierId)
  }

  /** `xs` with `m` appended when its check failed (`c`). */
  function Then(xs: seq<Missing>, c: bool, m: Missing): seq<Missing> {
    if c then xs + [m] else xs
  }

  /** The checks among the seven whose verdict is `true`, in the order they run. */
  function Collect(c0: bool, c1: bool, c2: bool, c3: bool, c4: bool, c5: bool, c6: bool): seq<Missing> {
    var afterSource := Then([], c0, SourceMissing);
    var afterNumber := Then(afterSource, c1, NumberMissing);
    var afterAmount := Then(afterNumber, c2, AmountMissing);
    var afterDate := Then(afterAmount, c3, DateMissing);
    var afterCurrency := Then(afterDate, c4, CurrencyMissing);
    var afterUnit := Then(afterCurrency, c5, BusinessUnitMissing);
    Then(afterUnit, c6, SupplierMissing)
  }

  /** The failed checks of `inv`, in the order they run. */
  function MissingFields(inv: FusionInvoice): seq<Missing> {
    Collect(
      Fails(inv, SourceMissing), Fails(inv, NumberMissing), Fails(inv, AmountMissing),
      Fails(inv, DateMissing), Fails(inv, CurrencyMissing), Fails(inv, BusinessUnitMissing),
      Fails(inv, SupplierMissing))
  }

  function Messages(ms: seq<Missing>): (r: seq<string>)
    ensures |r| == |ms|
    ensures forall i :: 0 <= i < |ms| ==> r[i] == Message(ms[i])
  {
    seq(|ms|, i requires 0 <= i < |ms| => Message(ms[i]))
  }

  /** The `errors` list `validateOracleFusionInvoice` returns for `inv`. */
  function ValidationErrors(inv: FusionInvoice): seq<string> {
    Messages(MissingFields(inv))
  }

  /** `validateOracleFusionInvoice`: one push per failed check, then `valid` iff none failed. */
  method Validate(inv: FusionInvoice) returns (valid: bool, errors: seq<string>)
    ensures errors == ValidationErrors(inv)
    ensures valid <==> errors == []
  {
    errors := [];
    ghost var failed: seq<Missing> := [];
    var c0 := inv.source == "";
    errors, failed := PushIf(c0, errors, failed, SourceMissing);
    var c1 := !Truthy(inv.invoiceNumber);
    errors, failed := PushIf(c1, errors, failed, NumberMissing);
    var c2 := inv.invoiceAmount.Undef? || inv.invoiceAmount.Null?;
    errors, failed := PushIf(c2, errors, failed, AmountMissing);
    var c3 := !Truthy(inv.invoiceDate);
    errors, failed := PushIf(c3, errors, failed, DateMissing);
    var c4 := !Truthy(inv.invoiceCurrency);
    errors, failed := PushIf(c4, errors, failed, CurrencyMissing);
    var c5 := inv.businessUnit == "";
    errors, failed := PushIf(c5, errors, failed, BusinessUnitMissing);
    var c6 := !Truthy(inv.supplier) && !Truthy(inv.supplierNumber) && !Truthy(inv.supplierId);
    errors, failed := PushIf(c6, errors, failed, SupplierMissing);
    assert failed == Collect(c0, c1, c2, c3, c4, c5, c6);
    VerdictsAreFails(inv, c0, c1, c2, c3, c4, c5, c6);
    valid := |errors| == 0;
  }

  /** The validator's inline conditions are the verdicts of `Fails`. */
  lemma VerdictsAreFails(inv: FusionInvoice, c0: bool, c1: bool, c2: bool, c3: bool, c4: bool, c5: bool, c6: bool)
    requires c0 == (inv.source == "")
    requires c1 == !Truthy(inv.invoiceNumber)
    requires c2 == (inv.invoiceAmount.Undef? || inv.invoiceAmount.Null?)
    requires c3 == !Truthy(inv.invoiceDate)
    requires c4 == !Truthy(inv.invoiceCurrency)
    requires c5 == (inv.businessUnit == "")
    requires c6 == (!Truthy(inv.supplier) && !Truthy(inv.supplierNumber) && !Truthy(inv.supplierId))
    ensures MissingFields(inv) == Collect(c0, c1, c2, c3, c4, c5, c6)
  {
  }

  /**
   * `if (c) errors.push(Message(m))`, with the failed check recorded beside
   * the message in `failed`.
   */
  method PushIf(c: bool, errors: seq<string>, ghost failed: seq<Missing>, m: Missing)
    returns (errors': seq<string>, ghost failed': seq<Missing>)
    requires errors == Messages(failed)
    ensures errors' == if c then errors + [Message(m)] else errors
    ensures failed' == Then(failed, c, m)
    ensures errors' == Messages(failed')
  {
    if c {
      errors' := errors + [Message(m)];
    } else {
      errors' := errors;
    }
    failed' := Then(failed, c, m);
  }

  /** Appending a check keeps membership exact. */
  lemma InThen(xs: seq<Missing>, c: bool, m: Missing, n: Missing)
    ensures n in Then(xs, c, m) <==> n in xs || (c && n == m)
  {
  }

  /** A check is collected exactly when its verdict is `true`. */
  lemma CollectIff(c0: bool, c1: bool, c2: bool, c3: bool, c4: bool, c5: bool, c6: bool, m: Missing)
    ensures m in Collect(c0, c1, c2, c3, c4, c5, c6) <==>
      match m
      case SourceMissing => c0
      case NumberMissing => c1
      case AmountMissing => c2
      case DateMissing => c3
      case CurrencyMissing => c4
      case BusinessUnitMissing => c5
      case SupplierMissing => c6
  {
    var s0 := Then([], c0, SourceMissing);
    var s1 := Then(s0, c1, NumberMissing);
    var s2 := Then(s1, c2, AmountMissing);
    var s3 := Then(s2, c3, DateMissing);
    var s4 := Then(s3, c4, CurrencyMissing);
    var s5 := Then(s4, c5, BusinessUnitMissing);
    InThen([], c0, SourceMissing, m);
    InThen(s0, c1, NumberMissing, m);
    InThen(s1, c2, AmountMissing, m);
    InThen(s2, c3, DateMissing, m);
    InThen(s3, c4, CurrencyMissing, m);
    InThen(s4, c5, BusinessUnitMissing, m);
    InThen(s5, c6, SupplierMissing, m);
  }

  /** A check is reported exactly when it fails. */
  lemma MissingIffFails(inv: FusionInvoice, m: Missing)
    ensures m in MissingFields(inv) <==> Fails(inv, m)
  {
    CollectIff(
      Fails(inv, SourceMissing), Fails(inv, NumberMissing), Fails(inv, AmountMissing),
      Fails(inv, DateMissing), Fails(inv, CurrencyMissing), Fails(inv, BusinessUnitMissing),
      Fails(inv, SupplierMissing), m);
  }

  /** Every element of `xs` ranks strictly before the next. */
  predicate Ascending(xs: seq<Missing>) {
    forall i, j :: 0 <= i < j < |xs| ==> Rank(xs[i]) < Rank(xs[j])
  }

  /** Appending a check that ranks after everything so far keeps the list ascending. */
  lemma AscendingThen(xs: seq<Missing>, c: bool, m: Missing)
    requires Ascending(xs)
    requires forall i :: 0 <= i < |xs| ==> Rank(xs[i]) < Rank(m)
    ensures Ascending(Then(xs, c, m))
    ensures forall i :: 0 <= i < |Then(xs, c, m)| ==> Rank(Then(xs, c, m)[i]) <= Rank(m)
  {
  }

  /** Collected checks keep their running order, each at most once. */
  lemma CollectAscending(c0: bool, c1: bool, c2: bool, c3: bool, c4: bool, c5: bool, c6: bool)
    ensures Ascending(Collect(c0, c1, c2, c3, c4, c5, c6))
  {
    var s0 := Then([], c0, SourceMissing);
    var s1 := Then(s0, c1, NumberMissing);
    var s2 := Then(s1, c2, AmountMissing);
    var s3 := Then(s2, c3, DateMissing);
    var s4 := Then(s3, c4, CurrencyMissing);
    var s5 := Then(s4, c5, BusinessUnitMissing);
    AscendingThen([], c0, SourceMissing);
    AscendingThen(s0, c1, NumberMissing);
    AscendingThen(s1, c2, AmountMissing);
    AscendingThen(s2, c3, DateMissing);
    AscendingThen(s3, c4, CurrencyMissing);
    AscendingThen(s4, c5, BusinessUnitMissing);
    AscendingThen(s5, c6, SupplierMissing);
  }

  /** Checks are reported in their fixed order, each at most once. */
  lemma MissingInOrder(inv: FusionInvoice)
    ensures Ascending(MissingFields(inv))
  {
    CollectAscending(
      Fails(inv, SourceMissing), Fails(inv, NumberMissing), Fails(inv, AmountMissing),
      Fails(inv, DateMissing), Fails(inv, CurrencyMissing), Fails(inv, BusinessUnitMissing),
      Fails(inv, SupplierMissing));
  }

  /**
   * A left inverse of `Message`, used only to prove `MessageNamesCheck`: the
   * seven messages differ in length, except the number and amount messages,
   * which differ in their eighth character. `validateInvoice` never reads a
   * message back.
   */
  function CheckOf(message: string): Option<Missing> {
    if |message| == 18 then Some(SourceMissing)
    else if |message| == 25 && message[7] == 'N' then Some(NumberMissing)
    else if |message| == 25 && message[7] == 'A' then Some(AmountMissing)
    else if |message| == 23 then Some(DateMissing)
    else if |message| == 27 then Some(CurrencyMissing)
    else if |message| == 24 then Some(BusinessUnitMissing)
    else if |message| == 74 then Some(SupplierMissing)
    else None
  }

  /** Every message names its check back, so no two checks share a message. */
  lemma MessageNamesCheck(m: Missing)
    ensures CheckOf(Message(m)) == Some(m)
  {
    match m
    case SourceMissing =>
    case NumberMissing =>
    case AmountMissing =>
    case DateMissing =>
    case CurrencyMissing =>
    case BusinessUnitMissing =>
    case SupplierMissing =>
  }

  /** A message is in the error list exactly when its check fails. */
  lemma ErrorIffFails(inv: FusionInvoice, m: Missing)
    ensures Message(m) in ValidationErrors(inv) <==> Fails(inv, m)
  {
    var ms := MissingFields(inv);
    MissingIffFails(inv, m);
    if Message(m) in ValidationErrors(inv) {
      var i :| 0 <= i < |ms| && ValidationErrors(inv)[i] == Message(m);
      MessageNamesCheck(ms[i]);
      MessageNamesCheck(m);
    }
    if Fails(inv, m) {
      var i :| 0 <= i < |ms| && ms[i] == m;
      assert ValidationErrors(inv)[i] == Message(m);
    }
  }

  /** `valid` holds exactly when every check passes. */
  lemma ValidIffAllPass(inv: FusionInvoice)
    ensures ValidationErrors(inv) == [] <==> forall m :: !Fails(inv, m)
  {
    if ValidationErrors(inv) != [] {
      MissingIffFails(inv, MissingFields(inv)[0]);
    } else {
      forall m ensures !Fails(inv, m) {
        MissingIffFails(inv, m);
      }
    }
  }

  /**
   * A transformed invoice is never reported as lacking its amount or currency
   * (they default to 0 and "USD"), lacks Source or BusinessUnit exactly when the
   * configuration leaves them empty, and lacks supplier identification exactly
   * when the vendor name and the mapped Oracle ids are all falsy.
   */
  lemma TransformedRequiredFields(x: Value, cfg: Config, now: string)
    requires Transform(x, cfg, now).Ok?
    ensures var errors := ValidationErrors(Transform(x, cfg, now).value);
      && Message(AmountMissing) !in errors
      && Message(CurrencyMissing) !in errors
      && (Message(SourceMissing) in errors <==> cfg.source == "")
      && (Message(BusinessUnitMissing) in errors <==> cfg.businessUnit == "")
      && (Message(SupplierMissing) in errors <==>
            var out := Transform(x, cfg, now).value;
            !Truthy(Get(Get(x, "vendor"), "name")) && !Truthy(out.supplierNumber) && !Truthy(out.supplierId))
  {
    var out := Transform(x, cfg, now).value;
    TransformedChecks(x, cfg, now);
    ErrorIffFails(out, AmountMissing);
    ErrorIffFails(out, CurrencyMissing);
    ErrorIffFails(out, SourceMissing);
    ErrorIffFails(out, BusinessUnitMissing);
    ErrorIffFails(out, SupplierMissing);
  }

  /** The checks of `TransformedRequiredFields`, before they are turned into messages. */
  lemma TransformedChecks(x: Value, cfg: Config, now: string)
    requires Transform(x, cfg, now).Ok?
    ensures var out := Transform(x, cfg, now).value;
      && !Fails(out, AmountMissing)
      && !Fails(out, CurrencyMissing)
      && (Fails(out, SourceMissing) <==> cfg.source == "")
      && (Fails(out, BusinessUnitMissing) <==> cfg.businessUnit == "")
      && (Fails(out, SupplierMissing) <==>
            !Truthy(Get(Get(x, "vendor"), "name")) && !Truthy(out.supplierNumber) && !Truthy(out.supplierId))
  {
    TransformHeader(x, cfg, now);
    HeaderChecks(x, cfg, now, ReceivedDate(x).value, Transform(x, cfg, now).value.lines);
  }

  /** A successful transform is the header record with the lines filled in. */
  lemma TransformHeader(x: Value, cfg: Config, now: string)
    requires Transform(x, cfg, now).Ok?
    ensures ReceivedDate(x).Ok?
    ensures Transform(x, cfg, now).value
         == HeaderOf(x, cfg, now, ReceivedDate(x).value).(lines := Transform(x, cfg, now).value.lines)
  {
  }

  /** The checks on the header record, whatever its received date and lines. */
  lemma HeaderChecks(x: Value, cfg: Config, now: string, received: Value, lines: Option<seq<Line>>)
    ensures var out := HeaderOf(x, cfg, now, received).(lines := lines);
      && !Fails(out, AmountMissing)
      && !Fails(out, CurrencyMissing)
      && (Fails(out, SourceMissing) <==> cfg.source == "")
      && (Fails(out, BusinessUnitMissing) <==> cfg.businessUnit == "")
      && (Fails(out, SupplierMissing) <==>
            !Truthy(Get(Get(x, "vendor"), "name")) && !Truthy(out.supplierNumber) && !Truthy(out.supplierId))
  {
    var out := HeaderOf(x, cfg, now, received).(lines := lines);
    assert out.invoiceAmount == OrElse(Get(Get(x, "invoice"), "totalAmount"), Num(Decimal(0, 0)));
    assert out.invoiceCurrency == OrElse(Get(Get(x, "invoice"), "currency"), Str("USD"));
    assert out.supplier == OrElse(Get(Get(x, "vendor"), "name"), Str(""));
  }

  /** A zero amount passes the amount check: only null and undefined are rejected. */
  lemma ZeroAmountPasses(inv: FusionInvoice)
    requires inv.invoiceAmount == Num(Decimal(0, 0))
    ensures Message(AmountMissing) !in ValidationErrors(inv)
  {
    ErrorIffFails(inv, AmountMissing);
  }

  // ---------------------------------------------------------------------------
  // The shipped configuration
  // ---------------------------------------------------------------------------

  /** `exampleConfig`, the configuration the API endpoint uses. */
  function ExampleConfig(): Config {
    Config(
      "INVOICE_EXTRACTOR", "US1 Business Unit", "Standard",
      map[
        "Oracle Software (Schweiz) GmbH" := SupplierDetails(Undef, Str("SUP-001"), Str("ZURICH")),
        "Acme Corporation" := SupplierDetails(Num(Decimal(12345, 0)), Undef, Str("MAIN"))],
      Some(Distribution(Str("5000"), Str("100"), Str("IT"))))
  }

  /** A line item without accounting segments of its own. */
  function AcmeItem(): Value {
    Obj(map["description" := Str("Consulting"), "amount" := Num(Decimal(900, 0))])
  }

  /** Under the shipped configuration Acme Corporation maps to Oracle supplier 12345 at site MAIN. */
  lemma AcmeSupplier(cfg: Config)
    requires cfg == ExampleConfig()
    ensures SupplierFor(cfg, ToJsString(Str("Acme Corporation"))) == SupplierDetails(Num(Decimal(12345, 0)), Undef, Str("MAIN"))
  {
    assert ToJsString(Str("Acme Corporation")) == "Acme Corporation";
    assert "Acme Corporation" in cfg.supplierMapping;
  }

  /** A line with no segments of its own takes the shipped default distribution `100-5000-IT`. */
  lemma AcmeSegments(cfg: Config)
    requires cfg == ExampleConfig()
    ensures Combination(AcmeItem(), cfg) == Ok(Some("100" + "-" + "5000" + "-" + "IT"))
  {
    var item := AcmeItem();
    assert Get(item, "account") == Undef && Get(item, "costCenter") == Undef && Get(item, "department") == Undef;
    assert DefaultSegments(cfg) == Distribution(Str("5000"), Str("100"), Str("IT"));
    JoinCons("5000", ["IT"], "-");
    JoinCons("100", ["5000", "IT"], "-");
    assert Segment(Str("100"), "000") == "100";
    assert Segment(Str("5000"), "0000") == "5000";
    assert Segment(Str("IT"), "000") == "IT";
    assert "100" + "-" + ("5000" + "-" + "IT") == "100" + "-" + "5000" + "-" + "IT";
  }
}
