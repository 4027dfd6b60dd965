# Invoice extraction core, modelled in Dafny

This project models the backend of an invoice-extraction service. An upload
or an e-mail puts a PDF or an image into storage. A queue record then asks an
extraction worker to:

- fetch the file;
- send it to a Bedrock foundation model with an extraction prompt, and ask
  once more with a repair prompt when the reply does not parse;
- normalise the JSON the model returns;
- reconcile two fields (proforma invoices become `Prepayment`, and labelled
  purchase-order numbers are cleaned);
- score how much the extraction can be trusted;
- write a COMPLETED or FAILED record to the invoice table.

Next to the worker, the model covers:

- the HTTP API: route dispatch, the list-limit clamp, the upload validation and
  key building, the detail and Oracle Fusion views, and the JSON envelope;
- the upload ingester, which turns storage keys into table items and queue
  messages;
- the DynamoDB update and query builders;
- the e-mail attachment filter;
- the mapping of an extraction to an Oracle Fusion payables invoice and its
  validation.

One Dafny module stands for each source file. Three shared modules support
them:

- `Wrappers`: `Option` and `Result`.
- `Strings`: the JavaScript string operations used: `trim`, ASCII
  `toLowerCase`, `indexOf`, `lastIndexOf`, `split`, `join`, `replace` and
  UTF-16 length.
- `Json`: the JavaScript value space: `undefined`, `null`, booleans, exact
  decimal numbers, strings, arrays and objects. It also holds truthiness,
  `??`, `||`, property access and `String(v)`. `String(v)` on an object
  with an own `toString` key throws, as it does in JavaScript after
  `JSON.parse`.

Code that the source writes as expressions is modelled with functions and
lemmas. Code that changes state step by step is modelled with methods:

- `Reconcile.Reconcile` mutates an `InvoiceRecord` and a `WarningLog`.
- `ConfidenceScore.CalculateConfidence` accumulates a score and lowers it
  through `Math.min`.
- `OracleFusion.Validate` pushes errors one by one.
- `Dynamo.BuildUpdate` fills the name and value maps in a loop.
- The two queue handlers loop over their records.

Each such method is proved against a function of its inputs and of the old
state. The properties the source promises are proved as lemmas about that
function.

Services are classes whose methods append what they send to a log field and
read the answer from an oracle function indexed by the call number:

- the model service (`Bedrock.ModelClient`);
- the invoice table as the worker writes it (`ExtractHandler.InvoiceTable`);
- the ingest table and queue (`UploadIngest.IngestTable`,
  `UploadIngest.ExtractionQueue`);
- the DynamoDB document and query clients (`Dynamo.DocClient`,
  `Dynamo.QueryClient`);
- the invoice table as the API reads it (`Api.InvoiceIndex`).

Every oracle can refuse a call, and a refusal is the exception the SDK call
throws. This lets a contract state exactly which requests were sent, in what
order, and which of them failed. The S3 fetch is a plain function of bucket
and key that returns the bytes or the thrown message.

## Model

| member | source | states |
|---|---|---|
| Strings.Trim | backend/src/extract.ts:155 | `trim` never lengthens its input and leaves a text that neither starts nor ends with white space |
| Strings.LowerAt | backend/src/extract.ts:118 | `toLowerCase` folds position by position: character `i` of the result is character `i` of the input, lowered if it is an ASCII capital |
| Strings.IndexOf | backend/src/extract.ts:161 | the first position of the character, or -1 exactly when it is absent |
| Strings.LastIndexOf | backend/src/extract.ts:162 | the last position of the character, or -1 exactly when it is absent |
| Strings.Split | backend/src/upload-ingest.ts:77 | `split` on one separator gives at least one piece, and no piece contains the separator |
| Strings.JoinSplit | backend/src/upload-ingest.ts:80-81 | `join(split(s, c), c) == s`, which makes `rest.join("_")` the text after the first `_` |
| Strings.Utf16Length | backend/src/shared/confidence.ts:12 | JavaScript `length` counts UTF-16 units: at least one and at most two per character |
| Json.FirstDefinedPicksLeftmost | backend/src/extract.ts:192 | a chain of `??` yields its leftmost value that is neither `null` nor `undefined` |
| Json.NumberText | backend/src/shared/confidence.ts:5 | `String(number)` is a non-empty text over digits, `-`, `+`, `.` and `e` |
| Json.ConvertibleCases | backend/src/shared/confidence.ts:5-7 | `String(v)` succeeds on every scalar and throws on an object with an own `toString` key, also inside an array |
| Invoice.WarningLog.Push | backend/src/extract.ts:274 | `warnings.push(token)` appends exactly that token |
| Extract.MediaTypeOfKey | backend/src/extract.ts:117-146 | PNG only for a `.png` key and JPEG only for `.jpg`/`.jpeg`, compared after lower-casing |
| Extract.PrepareDocument | backend/src/extract.ts:117-146 | the document carries the file's bytes and the media type of its key |
| Extract.KeyPdf | backend/src/extract.ts:120-125 | any key ending in `.pdf`, in any case, is a PDF |
| Extract.KeyPng | backend/src/extract.ts:127-132 | any key ending in `.png`, in any case, is a PNG |
| Extract.KeyJpg | backend/src/extract.ts:134-139 | any key ending in `.jpg`, in any case, is a JPEG |
| Extract.KeyJpeg | backend/src/extract.ts:134-139 | any key ending in `.jpeg`, in any case, is a JPEG |
| Extract.KeyUnknown | backend/src/extract.ts:141-145 | a key with none of the four extensions is treated as a PDF |
| Extract.OpeningFence | backend/src/extract.ts:158 | `^```json?\s*` with the `i` flag: the match length at the head, never past the end |
| Extract.Unfenced | backend/src/extract.ts:158 | removing both fences leaves a slice of the trimmed reply |
| Extract.BraceSpan | backend/src/extract.ts:161-168 | the span from the first `{` to the last `}`: at least two characters, brace to brace |
| Extract.ParseJsonResponse | backend/src/extract.ts:151-175 | `null` for a falsy reply; the `.trim()` TypeError for a truthy non-string; never throws on a string |
| Extract.ParsesSpanOfTrimmed | backend/src/extract.ts:155-171 | fence removal never moves the span: `JSON.parse` receives the first-`{`-to-last-`}` span of the trimmed reply |
| Extract.NoSpanIsNull | backend/src/extract.ts:164-166 | a trimmed reply without a `{` or without a `}` gives `null` |
| Extract.SyntaxErrorIsNull | backend/src/extract.ts:170-174 | a span that `JSON.parse` rejects gives `null` |
| Extract.Pick | backend/src/extract.ts:207-222 | a synonym chain yields a set value or its default |
| Extract.PickLeftmost | backend/src/extract.ts:207-222 | synonyms resolve left to right: the first set key wins |
| Extract.PickDefault | backend/src/extract.ts:207-222 | with no synonym set, the default is taken |
| Extract.PickKeepsEmpty | backend/src/extract.ts:185-222 | an empty string is kept; only `null`/`undefined` fall through |
| Extract.Normalize | backend/src/extract.ts:180-224 | every field is defined and the metadata is absent; in the nested shape `lineItems` is always an array (the input's array or `[]`) |
| Extract.NormalizeNested | backend/src/extract.ts:182-201 | the nested branch reads `vendor` and `invoice`, and replaces a non-array `lineItems` by `[]` |
| Extract.NormalizeFlat | backend/src/extract.ts:205-223 | the flat branch defines every field |
| Extract.StructuredPurchaseOrder | backend/src/extract.ts:191-192 | the purchase-order number is the first set one of `purchaseOrderNumber`, `poNumber`, `po`, `purchaseOrder` |
| Extract.FlatPurchaseOrder | backend/src/extract.ts:213-214 | the flat purchase-order number is the first set one of its six synonyms |
| Extract.FlatTotal | backend/src/extract.ts:219 | the flat total is `parseNumber` of the first set one of `totalAmount`, `total`, `amount` |
| Extract.FlatLineItems | backend/src/extract.ts:222 | the flat line items are the first set synonym, whatever its type |
| Extract.FlatLineItemsNotArray | backend/src/extract.ts:222 | the flat branch does not check for an array: `{"items": "x"}` keeps the string |
| Money.ParseNumber | backend/src/extract.ts:229-236 | numbers pass through, strings go to `parseMoney`, everything else is `null` |
| Money.LeadingDigits | backend/src/extract.ts:255 | the longest digit prefix: all digits, and followed by a non-digit or the end |
| Money.MoneyClean | backend/src/extract.ts:241-255 | text already in `[\d.,-]` goes straight to the separator rule and `parseFloat` |
| Money.MoneyPlainDecimal | backend/src/extract.ts:238-256 | `"1234.56"`-style text yields exactly its decimal value |
| Money.MoneyCommaDecimal | backend/src/extract.ts:251-253 | with only a comma, the comma is the decimal point: `"100,00"` is 100 |
| Money.MoneyEuropean | backend/src/extract.ts:248-250 | with both separators every dot is dropped and the comma is the point: `"1.234,56"` is 1234.56 |
| Money.MoneyUsNotation | backend/src/extract.ts:248-250 | US notation is misread: in `"1,234.56"` the dot is dropped and the comma becomes the point |
| MoneyExamples.UsNotationExample | backend/src/extract.ts:248-250 | `"1,234.56"` gives 1.23456 |
| MoneyExamples.EuropeanExample | backend/src/extract.ts:248-250 | `"1.234,56"` gives 1234.56 |
| MoneyExamples.PlainExample | backend/src/extract.ts:255 | `"1234.56"` gives 1234.56 |
| MoneyExamples.CommaExample | backend/src/extract.ts:251-253 | `"100,00"` gives 100 |
| PurchaseOrder.MatchAtoms | backend/src/extract.ts:299 | the greedy match of one label alternative at the head of the text never exceeds the text |
| PurchaseOrder.StripLabel | backend/src/extract.ts:298-301 | the label removal leaves a suffix of its input |
| PurchaseOrder.Sanitize | backend/src/extract.ts:293-313 | `null` for empty input; every returned value has only `[A-Za-z0-9\-/.]`, a digit and at least three characters |
| PurchaseOrder.StripsOnlyPrefix | backend/src/extract.ts:298-301 | only the head of the text is removed |
| PurchaseOrder.PoFirst | backend/src/extract.ts:299 | `po` is the first alternative, so it wins over every longer label that starts the same way |
| PurchaseOrder.NoLabelBeforeDigit | backend/src/extract.ts:299 | no label matches text that starts with a digit |
| PurchaseOrder.SanitizeClean | backend/src/extract.ts:303-312 | a cleaned text with a digit and at least three characters is returned |
| PurchaseOrder.CleanCodeKept | backend/src/extract.ts:293-313 | a clean code starting with a digit is returned unchanged |
| PurchaseOrderExamples.NotIdempotent | backend/src/extract.ts:293-313 | `"PO PO"+d` gives `"PO"+d`, which gives `d`: sanitising twice differs from once |
| Reconcile.ProformaFound | backend/src/extract.ts:269 | `pro`, any white space, `forma`, in any case and at any offset, is found |
| Reconcile.ProformaNeedsF | backend/src/extract.ts:269 | text without a letter `f` never looks proforma |
| Reconcile.TagProforma | backend/src/extract.ts:267-276 | a proforma type becomes `Prepayment` with one `tagged_prepayment_from_proforma` token; otherwise nothing changes |
| Reconcile.ProformaNotPrepayment | backend/src/extract.ts:272 | the `!== "Prepayment"` test never fails on a proforma type |
| Reconcile.TagProformaIdempotent | backend/src/extract.ts:267-276 | tagging twice is tagging once, and the second pass logs nothing |
| Reconcile.ReconciledHeader | backend/src/extract.ts:264-291 | only `invoiceType` and `purchaseOrderNumber` change |
| Reconcile.ReconcileTokensKnown | backend/src/extract.ts:274-284 | at most two tokens are appended, and only the two known ones |
| Reconcile.Reconcile | backend/src/extract.ts:264-291 | the in-place update and the appended tokens; a field that does not convert throws after the earlier step took effect; vendor, items and metadata untouched |
| Reconcile.CleanedPurchaseOrder | backend/src/extract.ts:279-290 | the stored value and whether a token is logged agree with the purchase-order step |
| Reconcile.PoEmptyOrNull | backend/src/extract.ts:280-289 | missing, empty and `"null"` values are stored as `null` without a token |
| Reconcile.PoRejected | backend/src/extract.ts:285-286 | a value the sanitiser rejects is stored as `null` without a token |
| Reconcile.PoReplaced | backend/src/extract.ts:282-284 | a sanitised value that differs from the trimmed text replaces it, logged once |
| Reconcile.PoUnchanged | backend/src/extract.ts:282 | a sanitised value equal to the trimmed text leaves the stored value as it is |
| Reconcile.PoOutcomes | backend/src/extract.ts:279-290 | every stored value is `null`, the original, or a clean code with one token |
| Reconcile.SanitizedIsClean | backend/src/extract.ts:303-312 | every sanitised value is a clean code |
| Reconcile.PaddedCodeKept | backend/src/extract.ts:282 | a padded clean code keeps its padding, because only the trimmed text is compared |
| ConfidenceScore.CalculateConfidence | backend/src/shared/confidence.ts:1-75 | throws exactly when a scored field does not convert; otherwise returns `Confidence(x)` |
| ConfidenceScore.CountPoints | backend/src/shared/confidence.ts:25-44 | the `score += 1` steps count the verdicts that hold |
| ConfidenceScore.ScanThrowsIff | backend/src/shared/confidence.ts:17-54 | a `some` scan throws exactly when it reaches a description that does not convert |
| ConfidenceScore.ConvertibleFieldsScore | backend/src/shared/confidence.ts:5-20 | when every scored field converts, scoring does not throw |
| ConfidenceScore.ObjectVendorThrows | backend/src/shared/confidence.ts:5 | a vendor name with an own `toString` key makes the scorer throw |
| ConfidenceScore.Ceiling | backend/src/shared/confidence.ts:59-72 | the lowest ceiling that applies: 0.2 for a template or a zero total, at most 0.35 for a short snippet, at most 0.85 after reconciliation, else 1 |
| ConfidenceScore.ConfidenceIsCappedBase | backend/src/shared/confidence.ts:48-72 | the score is `min(base, ceiling)`: the order of the caps does not matter |
| ConfidenceScore.BaseIsPassRatio | backend/src/shared/confidence.ts:48 | the clamp never bites: the base is the number of checks passed over 6 |
| ConfidenceScore.ConfidenceInUnitInterval | backend/src/shared/confidence.ts:48-74 | `0 <= confidence <= base <= 1` |
| ConfidenceScore.CeilingsHold | backend/src/shared/confidence.ts:59-72 | each cap holds whenever its condition does |
| ConfidenceScore.FullConfidence | backend/src/shared/confidence.ts:25-72 | the score is 1 exactly when all six checks pass and no cap applies |
| ConfidenceScore.BlankVendorIsTemplate | backend/src/shared/confidence.ts:52-59 | a blank vendor fails its check and caps the score at 0.2 |
| ConfidenceScore.PlaceholderIsTemplate | backend/src/shared/confidence.ts:22-54 | a placeholder description fails the item check and marks a template |
| ConfidenceScore.ArithmeticPointNeeds | backend/src/shared/confidence.ts:32-45 | the arithmetic point needs a positive total, a tax, items, and a line sum within 1% of the net |
| ConfidenceScore.CloseWithin | backend/src/shared/confidence.ts:40-43 | for positive amounts `close` means a difference of at most 1% of the larger amount |
| ConfidenceScore.ConfidenceReadsOnly | backend/src/shared/confidence.ts:1-75 | the score reads only vendor, invoice, items, the snippet and the warnings |
| ConfidenceScore.LineSumSkipsNonNumeric | backend/src/shared/confidence.ts:36 | items without a numeric amount add nothing to the line sum |
| ConfidenceScoreExamples.AcmeScoresOne | backend/src/shared/confidence.ts:1-75 | a complete, consistent extraction scores exactly 1 |
| Bedrock.FamilyPrecedence | backend/src/shared/bedrock.ts:75-157 | Anthropic is recognised before Nova, and Nova before Titan; everything else takes the default body |
| Bedrock.BuildRequestBody | backend/src/shared/bedrock.ts:75-157 | the loop builds exactly the body `RequestBody` describes |
| Bedrock.ZeroTemperature | backend/src/shared/bedrock.ts:110-153 | every body asks for temperature 0 |
| Bedrock.TitanIsDefault | backend/src/shared/bedrock.ts:137-156 | the Titan body equals the default body and carries only the prompt |
| Bedrock.AnthropicLayout | backend/src/shared/bedrock.ts:78-105 | one block per document in order, PDFs as `document` and images as `image`, then the prompt last |
| Bedrock.NovaLayout | backend/src/shared/bedrock.ts:115-134 | Nova puts the prompt first, then the images; with only PDFs it sends the prompt alone |
| Bedrock.OnlyPdfs | backend/src/shared/bedrock.ts:117-118 | Nova drops every PDF |
| Bedrock.ParseResponse | backend/src/shared/bedrock.ts:159-182 | a body that does not parse throws its `SyntaxError`; otherwise the text is read by the precedence rules |
| Bedrock.TitanFirst | backend/src/shared/bedrock.ts:163-165 | a string `results[0].outputText` wins |
| Bedrock.NovaSecond | backend/src/shared/bedrock.ts:168-171 | otherwise the first Nova content part with a truthy `text` |
| Bedrock.ContentWithoutText | backend/src/shared/bedrock.ts:174-176 | a non-empty content list without text yields `""`, with no fall-through |
| Bedrock.ContentNotAList | backend/src/shared/bedrock.ts:175 | a content value with a length that is not an array throws on `.find` |
| Bedrock.Fallthrough | backend/src/shared/bedrock.ts:179-181 | `completion`, then `message.content`, then `""` |
| Bedrock.ShouldFallbackIff | backend/src/shared/bedrock.ts:17-31 | fallback is called for exactly when one of the ten phrases occurs, case-sensitively |
| Bedrock.EmptyMessageNoFallback | backend/src/shared/bedrock.ts:18-30 | an empty message never calls for the fallback |
| Bedrock.ModelClient.Send | backend/src/shared/bedrock.ts:44 | one request is logged, and the answer is the oracle's for that call number |
| Bedrock.OnceOutcome | backend/src/shared/bedrock.ts:33-57 | a reply names the invoked model and has a text that survives `slice` |
| Bedrock.UnsliceableTextFails | backend/src/shared/bedrock.ts:50 | a number, boolean or object reply text throws `text?.slice is not a function` |
| Bedrock.InvokeOnce | backend/src/shared/bedrock.ts:33-57 | sends exactly one request, for the given model, prompt and documents |
| Bedrock.InvokeBedrock | backend/src/shared/bedrock.ts:59-73 | the result and the requests sent are those of `Invocation` |
| Bedrock.AtMostTwoRequests | backend/src/shared/bedrock.ts:59-73 | one or two requests, the first to the requested model |
| Bedrock.SecondRequestIff | backend/src/shared/bedrock.ts:62-70 | a second request is sent exactly when the first fails with a fallback phrase and a different fallback model is configured |
| Bedrock.ReplyNamesInvokedModel | backend/src/shared/bedrock.ts:56-69 | a reply names the model of the last request |
| Bedrock.OutcomePropagates | backend/src/shared/bedrock.ts:61-71 | the outcome is the primary's with one request and the fallback's with two |
| Bedrock.InvocationRequests | backend/src/shared/bedrock.ts:61-69 | every request carries the same prompt and documents, to the primary or the fallback model |
| Bedrock.NoFallbackConfigured | backend/src/shared/bedrock.ts:62-63 | with no fallback model, exactly one request is sent |
| ExtractHandler.InvoiceTable.UpdateItem | backend/src/extract.ts:78-107 | the write is logged, and the oracle decides whether it is rejected |
| ExtractHandler.Query | backend/src/extract.ts:36-40 | `invokeBedrock` then `parseJsonResponse`: the result and the requests are those of `QueryOutcome` |
| ExtractHandler.QueryRequests | backend/src/extract.ts:36-45 | one or two requests, the first to the configured model, all with the same prompt and documents; an answer names the last request's model |
| ExtractHandler.RepairInputIsText | backend/src/extract.ts:43-45 | the repair prompt always receives a string |
| ExtractHandler.Ask | backend/src/extract.ts:24-52 | the result and the requests are those of `AskOutcome` |
| ExtractHandler.AskDocument | backend/src/extract.ts:35-52 | the result and the requests for a prepared document are those of `DocumentOutcome` |
| ExtractHandler.DocumentRequests | backend/src/extract.ts:36-48 | the first request carries the extraction prompt and the one document; a repair request carries no documents; a parsed reply names the last request's model |
| ExtractHandler.AskRequests | backend/src/extract.ts:24-52 | nothing is sent when the fetch fails or the key is not a string; otherwise the requests of `DocumentRequests` |
| ExtractHandler.Finish | backend/src/extract.ts:55-75 | normalise, reconcile, attach the metadata and score, exactly as `FinishOutcome` says |
| ExtractHandler.FinishScored | backend/src/extract.ts:55-75 | a finished record is scored, with its score in [0, 1]; what can stop it is only the conversion TypeError |
| ExtractHandler.TextFieldsFinish | backend/src/extract.ts:55-75 | a reply whose text fields all convert always finishes |
| ExtractHandler.HandlerCeilings | backend/src/extract.ts:69-70 | with the fixed snippet and only reconciliation's tokens, the snippet and reconciled caps never apply |
| ExtractHandler.CompletedCeilings | backend/src/extract.ts:61-75 | a COMPLETED score is capped only by the template and zero-total caps |
| ExtractHandler.StoredScoreIsStable | backend/src/extract.ts:68-75 | writing the score back does not change it |
| ExtractHandler.Attempt | backend/src/extract.ts:20-96 | the `try` block: the result and the requests are those of `AttemptOutcome` |
| ExtractHandler.AttemptScored | backend/src/extract.ts:20-96 | a completed attempt sent a request, names its last model and carries a score in [0, 1] |
| ExtractHandler.UpdateFor | backend/src/extract.ts:78-107 | COMPLETED carries the score, extraction and model; FAILED carries the one error message; both stamped with the clock |
| ExtractHandler.RecordWritesShape | backend/src/extract.ts:78-107 | one or two writes; a FAILED second write exactly when the COMPLETED one is rejected; the rejection of the last write escapes |
| ExtractHandler.RecordWritesTerminal | backend/src/extract.ts:78-107 | every write is terminal for its payload and stamped with the clock at its position |
| ExtractHandler.ProcessRecord | backend/src/extract.ts:16-109 | one record: the requests sent, the writes made and what escapes |
| ExtractHandler.WriteTerminal | backend/src/extract.ts:78-107 | the terminal writes of one record and what escapes the `catch` |
| ExtractHandler.BodyPayload | backend/src/extract.ts:16-17 | a body that does not parse, or parses to `null`, throws before the `try` |
| ExtractHandler.Handler | backend/src/extract.ts:14-111 | the records in order: the requests, the writes and what is thrown are those of `Run` |
| ExtractHandler.HandlerWrites | backend/src/extract.ts:14-111 | every write is terminal for some parsed record and stamped at its position |
| ExtractHandler.HandlerStops | backend/src/extract.ts:15-107 | a run that throws nothing parsed every body; a run that throws stopped at one record |
| ExtractHandler.HandlerAccepted | backend/src/extract.ts:14-111 | with no rejected write, record `w` makes write `w`, and the run throws exactly at the first body that does not parse |
| OracleFusion.DatePart | backend/src/shared/oracle-fusion.ts:76-89 | `split("T")[0]`: a prefix without `T`, cut at the first `T` |
| OracleFusion.TransformFailsIff | backend/src/shared/oracle-fusion.ts:68-125 | the transform throws exactly on a nullish extraction, an unconvertible vendor, a non-string `receivedAt`, or a failing line |
| OracleFusion.ObjectVendorRejected | backend/src/shared/oracle-fusion.ts:73 | a vendor name with an own `toString` key throws |
| OracleFusion.HeaderDefaults | backend/src/shared/oracle-fusion.ts:76-88 | the header fields take the extraction's values with their `\|\|` defaults |
| OracleFusion.SupplierLookup | backend/src/shared/oracle-fusion.ts:72-95 | the supplier fields come from the mapping keyed by the vendor name |
| OracleFusion.ReceivedDateIsDatePart | backend/src/shared/oracle-fusion.ts:89 | the received date is the part of `receivedAt` before its first `T` |
| OracleFusion.TransformLines | backend/src/shared/oracle-fusion.ts:99-122 | lines exist exactly when `lineItems` is an array |
| OracleFusion.LinesFollowItems | backend/src/shared/oracle-fusion.ts:99-122 | one line per item, with its number, amount, description, quantity, unit price and one distribution |
| OracleFusion.CombinationAbsentIff | backend/src/shared/oracle-fusion.ts:132-140 | no combination exactly when the three segments are falsy after their defaults |
| OracleFusion.ObjectSegmentRejected | backend/src/shared/oracle-fusion.ts:143-149 | a segment with an own `toString` key throws in `join` |
| OracleFusion.CombinationSegments | backend/src/shared/oracle-fusion.ts:143-149 | the combination splits back into cost centre, account and department |
| OracleFusion.Validate | backend/src/shared/oracle-fusion.ts:155-177 | the pushes produce `ValidationErrors`, and the invoice is valid exactly when there are none |
| OracleFusion.MissingIffFails | backend/src/shared/oracle-fusion.ts:161-171 | a check is listed exactly when it fails |
| OracleFusion.MissingInOrder | backend/src/shared/oracle-fusion.ts:161-171 | errors come in the fixed order of the checks |
| OracleFusion.MessageNamesCheck | backend/src/shared/oracle-fusion.ts:161-170 | no two checks share a message |
| OracleFusion.ErrorIffFails | backend/src/shared/oracle-fusion.ts:161-171 | a check's message is present exactly when the check fails |
| OracleFusion.ValidIffAllPass | backend/src/shared/oracle-fusion.ts:174 | valid exactly when every check passes |
| OracleFusion.ZeroAmountPasses | backend/src/shared/oracle-fusion.ts:163 | an amount of 0 is not missing |
| OracleFusion.TransformedRequiredFields | backend/src/shared/oracle-fusion.ts:78-171 | a transformed invoice never misses amount or currency; source, business unit and supplier are missing exactly when their inputs are empty |
| OracleFusion.AcmeSupplier | backend/src/shared/oracle-fusion.ts:181-203 | the example configuration maps "Acme Corporation" to supplier 12345 at site MAIN |
| Api.RouteConditions | backend/src/api.ts:17-33 | the route chosen for each path and method, earlier rules excluded |
| Api.OracleViewIgnoresMethod | backend/src/api.ts:24-26 | the Oracle Fusion view is served for every method, DELETE included |
| Api.ListLimit | backend/src/api.ts:37-38 | the page size always lies in (0, 100] |
| Api.ListLimitCases | backend/src/api.ts:37-38 | the requested size in (0, 100], 100 above that, and 25 otherwise |
| Api.SafeName | backend/src/api.ts:164 | runs of characters outside `[\w.\-]` become one `_`: the result has safe characters only, is never longer, and is empty only for an empty name |
| Api.SafeNameHasNoSlash | backend/src/api.ts:164-165 | a stored file name never contains `/` |
| Api.SafeNameKeepsSafe | backend/src/api.ts:164 | names made only of `[\w.\-]` are kept |
| Api.SafeNameIdempotent | backend/src/api.ts:164 | sanitising twice changes nothing more |
| Api.JsonResponse | backend/src/api.ts:200-209 | status 200 by default, the JSON and CORS headers, and the body as given |
| Api.UploadDecision | backend/src/api.ts:149-183 | a non-PDF name is refused before any size check; an oversized PDF is refused; otherwise the key is built, signed and returned |
| Api.DefaultFilename | backend/src/api.ts:151-153 | without a string file name the upload is `invoice.pdf` and is accepted when no size is given |
| Api.UploadKeyIsPdf | backend/src/api.ts:155-165 | every accepted upload key is read as a PDF by the extractor |
| Api.ExceedsOnlyFinite | backend/src/api.ts:158 | `Infinity` and `NaN` limits are never exceeded |
| Api.Found | backend/src/api.ts:185-198 | `null` without a query when an id is empty; otherwise the lookup throws exactly when DynamoDB refuses the query |
| Api.InvoiceIndex.FindByAttachmentId | backend/src/api.ts:185-198 | no query when either id is empty; otherwise one query, numbered after the earlier ones, giving the first item, `null`, or the exception DynamoDB throws |
| Api.GetInvoiceDetail | backend/src/api.ts:60-69 | a refused lookup escapes with its message; otherwise the item with 200, or 404 "Not found" |
| Api.GetOracleFusionFormat | backend/src/api.ts:71-99 | a refused lookup escapes, because it sits before the `try`; otherwise 404 without an item, 500 when the transform throws, else the Oracle record, its validation and the original extraction |
| Api.MissingIdIsNotFound | backend/src/api.ts:186 | without both ids the lookup cannot throw and finds nothing |
| UploadIngest.FileWithoutUnderscore | backend/src/upload-ingest.ts:80-81 | a file name without `_` is both the attachment id and the safe name |
| UploadIngest.FileWithUnderscore | backend/src/upload-ingest.ts:80-81 | the attachment id is the text before the first `_`; the rest, or the whole file when the rest is empty, is the safe name |
| UploadIngest.KeyWithoutSlash | backend/src/upload-ingest.ts:78-79 | a key without `/` gives `unknown` and `attachment` |
| UploadIngest.ExtraSegmentsIgnored | backend/src/upload-ingest.ts:77-79 | segments after the third are ignored |
| UploadIngest.KeyRoundTrip | backend/src/upload-ingest.ts:76-83 | parsing an `attachments/m/a_name` key gives back its parts |
| UploadIngest.UploadKeyRoundTrip | backend/src/upload-ingest.ts:76-83 | parsing an upload key gives back the ids and the sanitised name |
| UploadIngest.Ttl | backend/src/upload-ingest.ts:25 | the expiry is the current second plus 90 days |
| UploadIngest.SortKeyParts | backend/src/upload-ingest.ts:37 | the index sort key splits back into time, message id and attachment id |
| UploadIngest.PlusToSpace | backend/src/upload-ingest.ts:16 | every `+` becomes a space, and nothing else changes |
| UploadIngest.RecordOutcome | backend/src/upload-ingest.ts:18-69 | a key outside `attachments/` does nothing; an oversized file is written FAILED with no message; otherwise PENDING and one message |
| UploadIngest.UploadedFileIngested | backend/src/upload-ingest.ts:14-69 | an uploaded file gets one item with its ids and name, and a message unless it is too large |
| UploadIngest.IngestTable.PutItem | backend/src/upload-ingest.ts:43-54 | the put is logged, and the oracle decides whether it is rejected |
| UploadIngest.ExtractionQueue.Send | backend/src/upload-ingest.ts:56-69 | the message is logged, and the oracle decides whether it is rejected |
| UploadIngest.ProcessRecord | backend/src/upload-ingest.ts:16-69 | one record's puts and sends, and what a rejection throws |
| UploadIngest.Handler | backend/src/upload-ingest.ts:14-74 | the puts, sends and throw of the run over all records |
| UploadIngest.HandlerAnnounces | backend/src/upload-ingest.ts:42-69 | every message follows a PENDING item, and there are never more sends than puts or puts than records |
| UploadIngest.HandlerStops | backend/src/upload-ingest.ts:14-74 | each processed record had a decodable key and its planned effect; a throw stops the run |
| UploadIngest.HandlerAccepted | backend/src/upload-ingest.ts:14-74 | with no rejection, the run throws exactly at the first undecodable key and processes every record before it |
| Dynamo.PlaceholdersDistinct | backend/src/shared/dynamo.ts:21-22 | `#k{i}` and `:v{i}` are pairwise distinct, and no name placeholder equals a value placeholder |
| Dynamo.BindContents | backend/src/shared/dynamo.ts:20-26 | entry `i` is bound under placeholder `i`, and no other key is bound |
| Dynamo.BuildUpdate | backend/src/shared/dynamo.ts:16-35 | names and values bind entry `i` under `#k{i}`/`:v{i}`, the expression is `SET` with the parts in entry order, and the key is passed through |
| Dynamo.ExpressionOrder | backend/src/shared/dynamo.ts:25-32 | each part is appended after the earlier ones, separated by `", "` |
| Dynamo.DocClient.Send | backend/src/shared/dynamo.ts:28-36 | the command is logged, and the oracle for its call number decides whether it is refused |
| Dynamo.UpdateItem | backend/src/shared/dynamo.ts:11-37 | exactly one command is sent, with the contents `BuildUpdate` states; a refusal of that command is what escapes |
| Dynamo.QueryParamsShape | backend/src/shared/dynamo.ts:49-60 | the fixed index, condition and order; a start key exactly for a non-empty token; a bad token throws |
| Dynamo.PageOf | backend/src/shared/dynamo.ts:63-67 | a next token exactly when there is a last evaluated key; no items means `[]` |
| Dynamo.TokenResumes | backend/src/shared/dynamo.ts:58-65 | the returned token resumes the query where it stopped |
| Dynamo.QueryClient.Query | backend/src/shared/dynamo.ts:62 | the query is logged, and the oracle for its call number gives the result or the thrown exception |
| Dynamo.QueryInvoices | backend/src/shared/dynamo.ts:44-68 | no query when the token does not decode; otherwise one query, and its page or the exception DynamoDB throws |
| Email.KeepIff | backend/src/shared/email.ts:13-21 | an attachment is kept exactly when it is not inline, has no content id and is not an image logo |
| Email.NonImageLogoKept | backend/src/shared/email.ts:17-19 | a non-image file named "logo" is kept |
| Email.KeptAttachments | backend/src/shared/email.ts:13-21 | exactly the attachments that pass are kept |
| Email.KeptAppend | backend/src/shared/email.ts:13-21 | filtering distributes over concatenation, so order is preserved |
| Email.KeptSubMultiset | backend/src/shared/email.ts:13-21 | nothing is duplicated or invented |
| Email.EmailDefaults | backend/src/shared/email.ts:23-29 | the message id falls back to the clock in milliseconds; `from` and `subject` to `""`; the date to the clock |

## Left out

- Numbers: JavaScript numbers are exact decimals in the value space and reals in the confidence arithmetic. IEEE-754 rounding, overflow to `Infinity`, and `NaN` are not modelled, except where the API compares against `Number(...)` of text. `parseFloat` is modelled over the alphabet `[\d.,-]` that `parseMoney` leaves, so exponents cannot occur.
- Money.ParseNumber: a numeric `NaN` or `Infinity` passes through in the source; here every number is finite.
- Case folding: `toLowerCase` and the regular-expression `i` flag fold ASCII letters only, plus `ú`/`Ú` for the purchase-order labels.
- Regular expressions are written as explicit matchers. The opening fence `^```json?\s*` needs at least "```jso", as the code says.
- `"1,234.56"` parses to 1.23456. Once a comma is present, every dot is dropped as a thousands mark and the comma becomes the decimal point (backend/src/extract.ts:248-250), so US notation with a thousands comma is misread.
- Services passed in as parameters:
  - `JSON.parse` is an oracle returning a value or a `SyntaxError`;
  - base64 encoding of documents is not modelled, and documents carry their bytes;
  - `decodeURIComponent`, the `nextToken` codec, `uuidv4` and the S3 presigner are functions passed in;
  - the Bedrock, DynamoDB and SQS calls are oracle functions indexed by call number, each able to refuse;
  - the S3 fetch is a function of bucket and key giving the bytes or the thrown message;
  - the clock (`Date.now`, `new Date().toISOString()`) is a parameter.
- `JSON.stringify` of request and response bodies: bodies are kept as structured values, not serialised text.
- Logging (`log.*`) and metrics (`emitMetric`) are dropped. The one logging call that can throw, `text?.slice(0, 300)` in backend/src/shared/bedrock.ts:50, is modelled.
- The prompt templates (backend/src/shared/prompts.ts) are opaque strings and functions in the configuration.
- `listInvoices` is modelled only through its limit clamp and `queryInvoices`. The mapping of its items to the response shape (backend/src/api.ts:41-57) is not modelled.
- The delete and download handlers are modelled only as routes.
- Concurrency and retries by the queue, and the wall-clock `startTime` duration metric.
- `putItem` (backend/src/shared/dynamo.ts:7-9) is the `PutItem` of the ingest table; `getItem` is not used by the modelled code.
- backend/src/ingest.ts, backend/src/shared/s3.ts, backend/src/shared/validation.ts, backend/src/shared/schema.ts, the infrastructure stacks and the frontend are not part of this model. The file-name rewrite in ingest.ts is the same one as `Api.SafeName`.
