/** The typed extraction contract the deterministic stages consume. */
module Extraction {
  import opened Common

  datatype ExtractionLine = ExtractionLine(
    lineNo: string,
    description: Option<string>,
    qty: Option<real>,
    uom: Option<string>,
    unitPrice: Option<real>,
    taxCode: Option<string>,
    lineTotal: Option<real>)

  /** One item of the per-field confidence mapping. */
  datatype Confidence = Confidence(key: string, value: real)

  datatype InvoiceExtraction = InvoiceExtraction(
    vendorName: Option<string>,
    invoiceNumber: Option<string>,
    poNumber: Option<string>,
    issueDate: Option<int>,    // day number
    dueDate: Option<int>,      // day number
    currency: Option<string>,
    totalAmount: Option<real>,
    taxTotal: Option<real>,
    iban: Option<string>,
    lines: seq<ExtractionLine>,
    confidences: seq<Confidence>)
}
