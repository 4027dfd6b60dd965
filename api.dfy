/**
 * The HTTP API of backend/src/api.ts: route dispatch, the list-limit clamp,
 * the upload request check and key building, the attachment lookup behind the
 * detail and Oracle Fusion endpoints, and the JSON response envelope.
 *
 * DynamoDB, S3 presigning, `uuidv4`, `Number(...)` on strings, `JSON.parse`
 * and `JSON.stringify` are parameters or left symbolic: a response carries its
 * body as a value, not as the serialised text.
 */
module Api {
  import opened Wrappers
  import opened Strings
  import opened Json
  import opened Bedrock
  import opened Extract
  import opened OracleFusion

  // ---------------------------------------------------------------------------
  // JavaScript numbers where the source compares them
  // ---------------------------------------------------------------------------

  /** The IEEE values `Number(...)` can produce, with finite ones as exact reals. */
  datatype JsNumber = Finite(r: real) | NaN | PosInfinity | NegInfinity

  /** `Math.min(a, b)` for a finite `b`. */
  function MinWith(a: JsNumber, b: real): JsNumber {
    match a
    case Finite(r) => Finite(if r <= b then r else b)
    case NaN => NaN
    case PosInfinity => Finite(b)
    case NegInfinity => NegInfinity
  }

  /** `max > 0 && size > max`: the size guard shared by the upload endpoint and the upload trigger. */
  predicate Exceeds(size: real, max: JsNumber) {
    max.Finite? && max.r > 0.0 && size > max.r
  }

  /** `Infinity` and `NaN` are never exceeded. */
  lemma ExceedsOnlyFinite(size: real, max: JsNumber)
    ensures Exceeds(size, max) ==> max.Finite? && 0.0 < max.r < size
  {
  }

  // ---------------------------------------------------------------------------
  // Route dispatch
  // ---------------------------------------------------------------------------

  datatype Route = ListInvoices | CreateUpload | OracleFusionFormat | DeleteInvoice | DownloadAttachment | InvoiceDetail

  /** `handler`: the first matching rule wins; `rawPath` defaults to "". */
  function RouteOf(rawPath: Option<string>, httpMethod: string): Route {
    var path := rawPath.GetOr("");
    if path == "/invoices" then ListInvoices
    else if path == "/upload" && httpMethod == "POST" then CreateUpload
    else if StartsWith(path, "/invoices/") && EndsWith(path, "/oracle-fusion") then OracleFusionFormat
    else if StartsWith(path, "/invoices/") && httpMethod == "DELETE" then DeleteInvoice
    else if EndsWith(path, "/download") then DownloadAttachment
    else InvoiceDetail
  }

  /** The condition under which each route is chosen, earlier rules excluded. */
  lemma RouteConditions(rawPath: Option<string>, httpMethod: string)
    ensures var path := rawPath.GetOr(""); var r := RouteOf(rawPath, httpMethod);
      && (r == ListInvoices <==> path == "/invoices")
      && (r == CreateUpload <==> path == "/upload" && httpMethod == "POST")
      && (r == OracleFusionFormat <==> StartsWith(path, "/invoices/") && EndsWith(path, "/oracle-fusion"))
      && (r == DeleteInvoice <==>
            StartsWith(path, "/invoices/") && !EndsWith(path, "/oracle-fusion") && httpMethod == "DELETE")
      && (r == DownloadAttachment <==>
            path != "/invoices" && !(path == "/upload" && httpMethod == "POST")
            && !(StartsWith(path, "/invoices/") && (EndsWith(path, "/oracle-fusion") || httpMethod == "DELETE"))
            && EndsWith(path, "/download"))
  {
    var path := rawPath.GetOr("");
    if StartsWith(path, "/invoices/") {
      assert path != "/invoices" by { assert |path| >= 10; }
      assert path != "/upload" by { assert path[1] == 'i'; }
    }
  }

  /** The Oracle Fusion view is served for every method, DELETE included. */
  lemma OracleViewIgnoresMethod(rawPath: Option<string>, m1: string, m2: string)
    requires RouteOf(rawPath, m1) == OracleFusionFormat
    ensures RouteOf(rawPath, m2) == OracleFusionFormat
  {
    RouteConditions(rawPath, m1);
    RouteConditions(rawPath, m2);
  }

  // ---------------------------------------------------------------------------
  // listInvoices: the page size
  // ---------------------------------------------------------------------------

  /**
   * `Math.min(Number(limit ?? 25), 100)`, replaced by 25 unless finite and
   * positive. `toNumber` is JavaScript's `Number` on a query-string value.
   */
  function ListLimit(limit: Option<string>, toNumber: string -> JsNumber): (r: real)
    ensures 0.0 < r <= 100.0
  {
    var n := if limit.Some? then toNumber(limit.value) else Finite(25.0);
    var capped := MinWith(n, 100.0);
    if capped.Finite? && capped.r > 0.0 then capped.r else 25.0
  }

  /** The page size is the requested one when it lies in (0, 100], 100 above that, and 25 otherwise. */
  lemma ListLimitCases(limit: Option<string>, toNumber: string -> JsNumber)
    ensures limit.None? ==> ListLimit(limit, toNumber) == 25.0
    ensures limit.Some? ==> match toNumber(limit.value)
      case Finite(v) =>
        (0.0 < v <= 100.0 ==> ListLimit(limit, toNumber) == v)
        && (v > 100.0 ==> ListLimit(limit, toNumber) == 100.0)
        && (v <= 0.0 ==> ListLimit(limit, toNumber) == 25.0)
      case PosInfinity => ListLimit(limit, toNumber) == 100.0
      case _ => ListLimit(limit, toNumber) == 25.0
  {
  }

  // ---------------------------------------------------------------------------
  // createUpload: file names and keys
  // ---------------------------------------------------------------------------

  /** `[\w.\-]`: the characters a stored file name keeps. */
  predicate SafeChar(c: char) { IsWordChar(c) || c == '.' || c == '-' }

  predicate AllSafe(s: string) { forall i :: 0 <= i < |s| ==> SafeChar(s[i]) }

  /** `s` without its leading run of characters outside `[\w.\-]`. */
  function DropUnsafe(s: string): (r: string)
    ensures |r| <= |s|
    ensures s != [] && !SafeChar(s[0]) ==> |r| < |s|
    ensures r == [] || SafeChar(r[0])
  {
    if s != [] && !SafeChar(s[0]) then DropUnsafe(s[1..]) else s
  }

  /** `filename.replace(/[^\w.\-]+/g, "_")`: every maximal run of other characters becomes one `_`. */
  function SafeName(s: string): (r: string)
    ensures AllSafe(r)
    ensures |r| <= |s|
    ensures s != [] ==> r != []
    decreases |s|
  {
    if s == [] then []
    else if SafeChar(s[0]) then [s[0]] + SafeName(s[1..])
    else "_" + SafeName(DropUnsafe(s))
  }

  /** A stored file name never contains `/`. */
  lemma SafeNameHasNoSlash(s: string)
    ensures '/' !in SafeName(s)
  {
  }

  /** Names made only of `[\w.\-]` are kept as they are. */
  lemma {:induction false} SafeNameKeepsSafe(s: string)
    requires AllSafe(s)
    ensures SafeName(s) == s
    decreases |s|
  {
    if s != [] {
      SafeNameKeepsSafe(s[1..]);
    }
  }

  /** Sanitising twice changes nothing more. */
  lemma SafeNameIdempotent(s: string)
    ensures SafeName(SafeName(s)) == SafeName(s)
  {
    SafeNameKeepsSafe(SafeName(s));
  }

  lemma DropUnsafeAppend(x: string, y: string)
    requires y != [] && SafeChar(y[0])
    ensures DropUnsafe(x + y) == DropUnsafe(x) + y
    decreases |x|
  {
    if x != [] {
      assert (x + y)[0] == x[0];
      assert (x + y)[1..] == x[1..] + y;
      if !SafeChar(x[0]) {
        DropUnsafeAppend(x[1..], y);
      }
    }
  }

  /** No run crosses a kept character, so a name splits before one. */
  lemma {:induction false} SafeNameAppend(x: string, y: string)
    requires y != [] && SafeChar(y[0])
    ensures SafeName(x + y) == SafeName(x) + SafeName(y)
    decreases |x|
  {
    if x != [] {
      assert (x + y)[0] == x[0];
      if SafeChar(x[0]) {
        assert (x + y)[1..] == x[1..] + y;
        SafeNameAppend(x[1..], y);
        assert SafeName(x + y) == [x[0]] + (SafeName(x[1..]) + SafeName(y));
      } else {
        DropUnsafeAppend(x, y);
        var d := DropUnsafe(x);
        SafeNameAppend(d, y);
        assert SafeName(x + y) == "_" + (SafeName(d) + SafeName(y));
      }
    } else {
      assert x + y == y;
    }
  }

  /** `attachments/{messageId}/{attachmentId}_{safeName}` */
  function UploadKey(messageId: string, attachmentId: string, filename: string): string {
    "attachments/" + messageId + "/" + attachmentId + "_" + SafeName(filename)
  }

  // ---------------------------------------------------------------------------
  // Responses
  // ---------------------------------------------------------------------------

  /** The bodies the modelled endpoints send, before `JSON.stringify`. */
  datatype Body =
    | MessageBody(message: string)
    | UploadBody(uploadUrl: string, attachmentKey: string, messageId: string, attachmentId: string)
    | ItemBody(item: Value)
    | OracleBody(oracleFormat: FusionInvoice, valid: bool, errors: seq<string>, originalExtraction: Value)
    | FailureBody(message: string, error: string)

  datatype Response = Response(statusCode: int, headers: map<string, string>, body: Body)

  /** The two headers every response carries. */
  predicate JsonHeaders(r: Response) {
    && "content-type" in r.headers && r.headers["content-type"] == "application/json"
    && "access-control-allow-origin" in r.headers && r.headers["access-control-allow-origin"] == "*"
  }

  /** `jsonResponse(body, statusCode = 200)`; `None` is an omitted status. */
  function JsonResponse(body: Body, statusCode: Option<int>): (r: Response)
    ensures JsonHeaders(r)
    ensures r.body == body
    ensures statusCode.None? ==> r.statusCode == 200
    ensures statusCode.Some? ==> r.statusCode == statusCode.value
  {
    Response(
      statusCode.GetOr(200),
      map["content-type" := "application/json", "access-control-allow-origin" := "*"],
      body)
  }

  // ---------------------------------------------------------------------------
  // createUpload
  // ---------------------------------------------------------------------------

  const NotPdf := "Only PDF uploads are allowed."
  const TooLarge := "File exceeds upload limit."

  /** `event.body ? JSON.parse(event.body) : {}`; a `SyntaxError` escapes the handler. */
  function RequestBody(body: Option<string>, parse: string -> ParseOutcome): Result<Value> {
    if body.Some? && body.value != "" then
      match parse(body.value)
      case Parsed(v) => Ok(v)
      case SyntaxError(m) => Err(m)
    else Ok(Obj(map[]))
  }

  /** `body.fileSize` when it is a number. */
  function FileSize(v: Value): Option<real> {
    var n := Get(v, "fileSize");
    if n.Num? then Some(RealOf(n.n)) else None
  }

  /**
   * `createUpload` after the body is parsed: the extension check comes first,
   * then the size check, then the key from the two fresh ids. `presign` is the
   * signed PUT URL S3 issues for a key.
   */
  function Upload(v: Value, maxBytes: JsNumber, messageId: string, attachmentId: string, presign: string -> string): Response {
    var filename := Filename(v);
    var size := FileSize(v);
    if !EndsWith(Lower(filename), ".pdf") then JsonResponse(MessageBody(NotPdf), Some(400))
    else if size.Some? && Exceeds(size.value, maxBytes) then JsonResponse(MessageBody(TooLarge), Some(400))
    else
      var key := UploadKey(messageId, attachmentId, filename);
      JsonResponse(UploadBody(presign(key), key, messageId, attachmentId), None)
  }

  function CreateUploadResponse(
    body: Option<string>, parse: string -> ParseOutcome, maxBytes: JsNumber,
    messageId: string, attachmentId: string, presign: string -> string): Result<Response>
  {
    var v := RequestBody(body, parse);
    if v.Err? then Err(v.message) else Ok(Upload(v.value, maxBytes, messageId, attachmentId, presign))
  }

  /**
   * The upload decision: a name not ending in `.pdf` (any case) is refused
   * whatever its size; a PDF is refused only when the limit is positive and a
   * numeric size exceeds it; otherwise the key is built from the ids and the
   * sanitised name, and that key is what is signed and returned.
   */
  lemma UploadDecision(v: Value, maxBytes: JsNumber, messageId: string, attachmentId: string, presign: string -> string)
    ensures var r := Upload(v, maxBytes, messageId, attachmentId, presign); var f := Filename(v);
      && JsonHeaders(r)
      && (!EndsWith(Lower(f), ".pdf") ==> r.statusCode == 400 && r.body == MessageBody(NotPdf))
      && (EndsWith(Lower(f), ".pdf") && FileSize(v).Some? && Exceeds(FileSize(v).value, maxBytes) ==>
            r.statusCode == 400 && r.body == MessageBody(TooLarge))
      && (r.statusCode == 200 <==>
            EndsWith(Lower(f), ".pdf") && !(FileSize(v).Some? && Exceeds(FileSize(v).value, maxBytes)))
      && (r.statusCode == 200 ==>
            var key := UploadKey(messageId, attachmentId, f);
            r.body == UploadBody(presign(key), key, messageId, attachmentId))
  {
  }

  const DefaultName := "invoice" + ".pdf"

  /** `body.filename` when it is a string, else "invoice.pdf". */
  function Filename(v: Value): string {
    var f := Get(v, "filename");
    if f.Str? then f.s else DefaultName
  }

  lemma DefaultNameIsPdf()
    ensures EndsWith(Lower(DefaultName), ".pdf")
  {
    LowerAppend("invoice", ".pdf");
    LowerPdf();
    Tail(Lower("invoice"), ".pdf");
  }

  lemma LowerPdf()
    ensures Lower(".pdf") == ".pdf"
  {
  }

  /** A request without a string `filename` uploads as "invoice.pdf", which is accepted when no size is given. */
  lemma DefaultFilename(v: Value, maxBytes: JsNumber, messageId: string, attachmentId: string, presign: string -> string)
    requires !Get(v, "filename").Str? && !Get(v, "fileSize").Num?
    ensures Upload(v, maxBytes, messageId, attachmentId, presign).statusCode == 200
  {
    DefaultNameIsPdf();
  }

  /** For `ext` with `Lower(ext) == ".pdf"` every character is kept by the sanitiser. */
  lemma PdfExtensionSafe(ext: string)
    requires |ext| == 4 && Lower(ext) == ".pdf"
    ensures AllSafe(ext)
  {
    LowerAt(ext);
    assert LowerChar(ext[0]) == '.' && LowerChar(ext[1]) == 'p' && LowerChar(ext[2]) == 'd' && LowerChar(ext[3]) == 'f';
  }

  /**
   * Every accepted upload is stored under a key the extractor treats as a PDF:
   * sanitising keeps the four-character extension.
   */
  lemma UploadKeyIsPdf(messageId: string, attachmentId: string, filename: string)
    requires EndsWith(Lower(filename), ".pdf")
    ensures MediaTypeOfKey(UploadKey(messageId, attachmentId, filename)) == Pdf
  {
    var n := |filename|;
    var stem, ext := filename[..n - 4], filename[n - 4..];
    assert filename == stem + ext;
    assert Lower(ext) == ".pdf" by {
      LowerAppend(stem, ext);
      assert Lower(filename)[n - 4..] == Lower(ext);
    }
    PdfExtensionSafe(ext);
    SafeNameKeepsSafe(ext);
    SafeNameAppend(stem, ext);
    var prefix := "attachments/" + messageId + "/" + attachmentId + "_";
    assert UploadKey(messageId, attachmentId, filename) == (prefix + SafeName(stem)) + ext;
    KeyPdf(prefix + SafeName(stem), ext);
  }

  // ---------------------------------------------------------------------------
  // Lookups by attachment id
  // ---------------------------------------------------------------------------

  /** `res.Items?.[0] ?? null` */
  function FirstItem(items: Option<seq<Value>>): Value {
    if items.Some? && |items.value| > 0 then Coalesce(items.value[0], Null) else Null
  }

  /**
   * What `findByAttachmentId` returns for the two ids when its query is the
   * n-th one sent: `null` without a query when an id is empty, the first item
   * or `null` when DynamoDB answers, and the thrown message when it refuses.
   */
  function Found(query: (nat, string, string) -> Result<Option<seq<Value>>>, n: nat, messageId: string, attachmentId: string)
    : (r: Result<Value>)
    ensures messageId == "" || attachmentId == "" ==> r == Ok(Null)
    ensures messageId != "" && attachmentId != "" ==> (r.Err? <==> query(n, messageId, attachmentId).Err?)
  {
    if messageId == "" || attachmentId == "" then Ok(Null)
    else match query(n, messageId, attachmentId)
      case Err(m) => Err(m)
      case Ok(items) => Ok(FirstItem(items))
  }

  /** The invoice table as the API reads it; every query sent is recorded in `queries`. */
  class InvoiceIndex {
    var queries: seq<(string, string)>
    /**
     * For the n-th (messageId, attachmentId) query: the `Items` DynamoDB
     * returns, or the exception `docClient.send` throws.
     */
    const query: (nat, string, string) -> Result<Option<seq<Value>>>

    constructor (query: (nat, string, string) -> Result<Option<seq<Value>>>)
      ensures queries == [] && this.query == query
    {
      queries := [];
      this.query := query;
    }

    /** `findByAttachmentId`: no query is sent when either id is empty; a refused query throws. */
    method FindByAttachmentId(messageId: string, attachmentId: string) returns (item: Result<Value>)
      modifies this
      ensures item == Found(query, |old(queries)|, messageId, attachmentId)
      ensures messageId == "" || attachmentId == "" ==> queries == old(queries)
      ensures messageId != "" && attachmentId != "" ==> queries == old(queries) + [(messageId, attachmentId)]
    {
      if messageId == "" || attachmentId == "" {
        return Ok(Null);
      }
      var res := query(|queries|, messageId, attachmentId);
      queries := queries + [(messageId, attachmentId)];
      if res.Err? {
        return Err(res.message);
      }
      item := Ok(FirstItem(res.value));
    }
  }

  /**
   * `getInvoiceDetail`: the item, or 404 "Not found". Path parameters default
   * to "". A refused query is not caught here: it escapes as `Err`.
   */
  method GetInvoiceDetail(index: InvoiceIndex, messageIdParam: Option<string>, attachmentIdParam: Option<string>)
    returns (r: Result<Response>)
    modifies index
    ensures var found := Found(index.query, |old(index.queries)|, messageIdParam.GetOr(""), attachmentIdParam.GetOr(""));
      && (found.Err? ==> r == Err(found.message))
      && (found.Ok? ==>
            var item := found.value;
            && r.Ok? && JsonHeaders(r.value)
            && (!Truthy(item) ==> r.value.statusCode == 404 && r.value.body == MessageBody("Not found"))
            && (Truthy(item) ==> r.value.statusCode == 200 && r.value.body == ItemBody(item)))
    ensures |index.queries| <= |old(index.queries)| + 1
  {
    var found := index.FindByAttachmentId(messageIdParam.GetOr(""), attachmentIdParam.GetOr(""));
    if found.Err? {
      return Err(found.message);
    }
    var item := found.value;
    if !Truthy(item) {
      return Ok(JsonResponse(MessageBody("Not found"), Some(404)));
    }
    r := Ok(JsonResponse(ItemBody(item), None));
  }

  const TransformFailed := "Failed to transform to Oracle Fusion format"

  /**
   * `getOracleFusionFormat` with the shipped configuration: 404 without an
   * item, 500 with the thrown message when the transform throws, else the
   * Oracle record with its validation and the original extraction. The
   * lookup sits before the `try`, so a refused query escapes as `Err`.
   * `now` is the clock reading the transform uses for the default GL date.
   */
  method GetOracleFusionFormat(index: InvoiceIndex, messageIdParam: Option<string>, attachmentIdParam: Option<string>, now: string)
    returns (r: Result<Response>)
    modifies index
    ensures var found := Found(index.query, |old(index.queries)|, messageIdParam.GetOr(""), attachmentIdParam.GetOr(""));
      && (found.Err? ==> r == Err(found.message))
      && (found.Ok? ==>
            var item := found.value;
            var t := Transform(Get(item, "extractedJson"), ExampleConfig(), now);
            && r.Ok? && JsonHeaders(r.value)
            && (!Truthy(item) ==> r.value.statusCode == 404 && r.value.body == MessageBody("Not found"))
            && (Truthy(item) && t.Err? ==> r.value.statusCode == 500 && r.value.body == FailureBody(TransformFailed, t.message))
            && (Truthy(item) && t.Ok? ==>
                  && r.value.statusCode == 200
                  && r.value.body.OracleBody?
                  && r.value.body.oracleFormat == t.value
                  && r.value.body.errors == ValidationErrors(t.value)
                  && (r.value.body.valid <==> r.value.body.errors == [])
                  && r.value.body.originalExtraction == Get(item, "extractedJson")))
  {
    var found := index.FindByAttachmentId(messageIdParam.GetOr(""), attachmentIdParam.GetOr(""));
    if found.Err? {
      return Err(found.message);
    }
    var item := found.value;
    if !Truthy(item) {
      return Ok(JsonResponse(MessageBody("Not found"), Some(404)));
    }
    var t := Transform(Get(item, "extractedJson"), ExampleConfig(), now);
    if t.Err? {
      return Ok(JsonResponse(FailureBody(TransformFailed, t.message), Some(500)));
    }
    var valid, errors := Validate(t.value);
    r := Ok(JsonResponse(OracleBody(t.value, valid, errors, Get(item, "extractedJson")), None));
  }

  /** Without both ids nothing is looked up, nothing can be refused, and the answer is 404. */
  lemma MissingIdIsNotFound(query: (nat, string, string) -> Result<Option<seq<Value>>>, n: nat,
                            messageId: string, attachmentId: string)
    requires messageId == "" || attachmentId == ""
    ensures Found(query, n, messageId, attachmentId).Ok? && !Truthy(Found(query, n, messageId, attachmentId).value)
  {
  }
}
