/**
 * The canonical invoice record that `normalizeExtraction` of
 * backend/src/extract.ts produces and every later step reads: a vendor block,
 * an invoice header, the line items as the model returned them, and the
 * metadata the extraction handler attaches.
 */
module Invoice {
  import opened Wrappers
  import opened Json

  datatype Vendor = Vendor(name: Value, taxId: Value, address: Value)

  /** `totalAmount` and `taxAmount` went through `parseNumber`: a number, or `None` for `null`. */
  datatype Header = Header(
    invoiceNumber: Value,
    purchaseOrderNumber: Value,
    invoiceType: Value,
    invoiceDate: Value,
    dueDate: Value,
    currency: Value,
    totalAmount: Option<Decimal>,
    taxAmount: Option<Decimal>)

  /** The `meta` block written by the extraction handler. */
  datatype Meta = Meta(
    messageId: Value,
    receivedAt: Value,
    from: Value,
    subject: Value,
    attachmentKey: Value,
    extractionModel: string,
    confidenceScore: real,
    warnings: seq<string>,
    extractedTextSnippet: string)

  /** A snapshot of the record; `meta` is absent until the handler sets it. */
  datatype Extraction = Extraction(vendor: Vendor, invoice: Header, lineItems: Value, meta: Option<Meta>)

  /** The record as the object the handler and `reconcileExtraction` update in place. */
  class InvoiceRecord {
    var vendor: Vendor
    var invoice: Header
    var lineItems: Value
    var meta: Option<Meta>

    constructor (x: Extraction)
      ensures Snapshot() == x
    {
      vendor := x.vendor;
      invoice := x.invoice;
      lineItems := x.lineItems;
      meta := x.meta;
    }

    function Snapshot(): Extraction
      reads this
    {
      Extraction(vendor, invoice, lineItems, meta)
    }
  }

  /** The list the handler collects warning tokens in; steps append to it in place. */
  class WarningLog {
    var tokens: seq<string>

    constructor ()
      ensures tokens == []
    {
      tokens := [];
    }

    method Push(token: string)
      modifies this
      ensures tokens == old(tokens) + [token]
    {
      tokens := tokens + [token];
    }
  }
}
