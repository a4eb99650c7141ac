/** The deterministic three-way matcher: invoice, purchase order, goods receipt. */
module Matching {
  import opened Common
  import opened Extraction
  import Text

  datatype Outcome = Match | Tolerable | Mismatch

  datatype Severity = Error | Warn

  datatype ReasonCode =
    | MissingPo | VendorMm | CcyMm | UomMm | LineNotOnPo
    | GrLineMissing | QtyMm | PriceMm | PriceDrift

  datatype InvoiceLine = InvoiceLine(lineNo: string, qty: real, uom: Option<string>, unitPrice: real)

  datatype InvoiceForMatch = InvoiceForMatch(
    vendorName: Option<string>,
    poNumber: Option<string>,
    currency: Option<string>,
    lines: seq<InvoiceLine>)

  datatype PoLine = PoLine(lineNo: string, qty: real, uom: Option<string>, unitPrice: real)

  datatype PoForMatch = PoForMatch(
    poNumber: string,
    vendorName: Option<string>,
    currency: Option<string>,
    lines: seq<PoLine>)

  datatype Receipt = Receipt(lineNo: string, qty: real)

  datatype GrForMatch = GrForMatch(grNumber: string, received: seq<Receipt>)

  /** `delta` carries the exact figure a quantity or price finding quotes. */
  datatype MatchFinding = MatchFinding(
    code: ReasonCode,
    severity: Severity,
    lineNo: Option<string>,
    delta: Option<real>)

  datatype MatchResult = MatchResult(outcome: Outcome, findings: seq<MatchFinding>, normalizedDelta: real)

  const PRICE_PCT_TOLERANCE := 0.02
  const PRICE_ABS_TOLERANCE := 0.50
  const QTY_TOLERANCE := 0.0

  // ------------------------------------------------------------------ single comparisons

  function PriceBand(poUnitPrice: real): real {
    Max(PRICE_ABS_TOLERANCE, PRICE_PCT_TOLERANCE * poUnitPrice)
  }

  /** `delta / band` clipped to [0, 1]; a band of zero makes any delta a full one. */
  function Ratio(delta: real, band: real): real {
    if band <= 0.0 then (if delta > 0.0 then 1.0 else 0.0)
    else if delta / band > 0.0 then Min(1.0, delta / band) else 0.0
  }

  function Problem(code: ReasonCode, lineNo: Option<string>, delta: Option<real>): MatchFinding {
    MatchFinding(code, if code == PriceDrift then Warn else Error, lineNo, delta)
  }

  /** Both sides known and different after normalisation. */
  predicate VendorDiffers(invoice: InvoiceForMatch, po: PoForMatch) {
    invoice.vendorName.Some? && po.vendorName.Some? &&
    Text.Words(Text.Casefold(invoice.vendorName.value)) != Text.Words(Text.Casefold(po.vendorName.value))
  }

  predicate UpperDiffers(a: Option<string>, b: Option<string>) {
    a.Some? && b.Some? && Text.Upper(a.value) != Text.Upper(b.value)
  }

  function HeaderFindings(invoice: InvoiceForMatch, po: PoForMatch): seq<MatchFinding> {
    (if VendorDiffers(invoice, po) then [Problem(VendorMm, None, None)] else [])
    + (if UpperDiffers(invoice.currency, po.currency) then [Problem(CcyMm, None, None)] else [])
  }

  method CheckQty(line: InvoiceLine, receivedQty: real, ratios: seq<real>)
    returns (finding: Option<MatchFinding>, extended: seq<real>)
    ensures line.qty <= receivedQty ==> finding == None && extended == ratios
    ensures line.qty > receivedQty ==>
              finding == Some(Problem(QtyMm, Some(line.lineNo), Some(line.qty - receivedQty)))
              && extended == ratios + [Ratio(line.qty - receivedQty, 1.0)]
  {
    var delta := line.qty - receivedQty;
    if delta <= QTY_TOLERANCE {
      return None, ratios;
    }
    extended := ratios + [Ratio(delta, 1.0)];
    finding := Some(Problem(QtyMm, Some(line.lineNo), Some(delta)));
  }

  method CheckPrice(line: InvoiceLine, poLine: PoLine, ratios: seq<real>)
    returns (finding: Option<MatchFinding>, extended: seq<real>)
    ensures extended == ratios + [Ratio(Abs(line.unitPrice - poLine.unitPrice), PriceBand(poLine.unitPrice))]
    ensures finding == PriceFinding(line, poLine)
  {
    var delta := line.unitPrice - poLine.unitPrice;
    var band := PriceBand(poLine.unitPrice);
    extended := ratios + [Ratio(Abs(delta), band)];
    if Abs(delta) <= band {
      if delta == 0.0 {
        return None, extended;
      }
      return Some(Problem(PriceDrift, Some(line.lineNo), Some(delta))), extended;
    }
    finding := Some(Problem(PriceMm, Some(line.lineNo), Some(delta)));
  }

  function PriceFinding(line: InvoiceLine, poLine: PoLine): Option<MatchFinding> {
    var delta := line.unitPrice - poLine.unitPrice;
    if delta == 0.0 then None
    else
      var code := if Abs(delta) <= PriceBand(poLine.unitPrice) then PriceDrift else PriceMm;
      Some(Problem(code, Some(line.lineNo), Some(delta)))
  }

  // ------------------------------------------------------------------ the specification

  /** `{line.line_no: line for line in lines}`: a later line replaces an earlier one. */
  function PoLines(lines: seq<PoLine>): map<string, PoLine> {
    if lines == [] then map[]
    else var last := lines[|lines| - 1]; PoLines(lines[..|lines| - 1])[last.lineNo := last]
  }

  function ReceivedQty(receipts: seq<Receipt>): map<string, real> {
    if receipts == [] then map[]
    else var last := receipts[|receipts| - 1]; ReceivedQty(receipts[..|receipts| - 1])[last.lineNo := last.qty]
  }

  function Received(gr: Option<GrForMatch>): map<string, real> {
    if gr.Some? then ReceivedQty(gr.value.received) else map[]
  }

  /** What the two reference documents say, looked up by line number. */
  datatype Basis = Basis(po: map<string, PoLine>, received: map<string, real>)

  function QtyFindings(line: InvoiceLine, b: Basis): seq<MatchFinding> {
    if line.lineNo !in b.received then [Problem(GrLineMissing, Some(line.lineNo), None)]
    else if line.qty > b.received[line.lineNo] then
      [Problem(QtyMm, Some(line.lineNo), Some(line.qty - b.received[line.lineNo]))]
    else []
  }

  function OneLineFindings(line: InvoiceLine, b: Basis): seq<MatchFinding> {
    if line.lineNo !in b.po then [Problem(LineNotOnPo, Some(line.lineNo), None)]
    else
      var poLine := b.po[line.lineNo];
      QtyFindings(line, b)
      + Listed(PriceFinding(line, poLine))
      + (if UpperDiffers(line.uom, poLine.uom) then [Problem(UomMm, Some(line.lineNo), None)] else [])
  }

  function PriceRatio(line: InvoiceLine, b: Basis): real
    requires line.lineNo in b.po
  {
    var poPrice := b.po[line.lineNo].unitPrice;
    Ratio(Abs(line.unitPrice - poPrice), PriceBand(poPrice))
  }

  function OneLineRatios(line: InvoiceLine, b: Basis): seq<real> {
    if line.lineNo !in b.po then []
    else
      (if line.lineNo in b.received && line.qty > b.received[line.lineNo]
       then [Ratio(line.qty - b.received[line.lineNo], 1.0)] else [])
      + [PriceRatio(line, b)]
  }

  function FindingsPerLine(lines: seq<InvoiceLine>, b: Basis): seq<seq<MatchFinding>> {
    seq(|lines|, i requires 0 <= i < |lines| => OneLineFindings(lines[i], b))
  }

  function RatiosPerLine(lines: seq<InvoiceLine>, b: Basis): seq<seq<real>> {
    seq(|lines|, i requires 0 <= i < |lines| => OneLineRatios(lines[i], b))
  }

  function Findings(lines: seq<InvoiceLine>, b: Basis): seq<MatchFinding> {
    Flat(FindingsPerLine(lines, b))
  }

  function Ratios(lines: seq<InvoiceLine>, b: Basis): seq<real> {
    Flat(RatiosPerLine(lines, b))
  }

  lemma FindingsOfAppended(lines: seq<InvoiceLine>, line: InvoiceLine, b: Basis)
    ensures Findings(lines + [line], b) == Findings(lines, b) + OneLineFindings(line, b)
    ensures Ratios(lines + [line], b) == Ratios(lines, b) + OneLineRatios(line, b)
  {
    assert FindingsPerLine(lines + [line], b) == FindingsPerLine(lines, b) + [OneLineFindings(line, b)];
    assert RatiosPerLine(lines + [line], b) == RatiosPerLine(lines, b) + [OneLineRatios(line, b)];
    FlatOfAppended(FindingsPerLine(lines, b), OneLineFindings(line, b));
    FlatOfAppended(RatiosPerLine(lines, b), OneLineRatios(line, b));
  }

  /** `max(ratios, default=0)`. */
  function Worst(ratios: seq<real>): real {
    if ratios == [] then 0.0
    else if |ratios| == 1 then ratios[0]
    else Max(Worst(ratios[..|ratios| - 1]), ratios[|ratios| - 1])
  }

  predicate HasSeverity(findings: seq<MatchFinding>, severity: Severity) {
    exists k :: 0 <= k < |findings| && findings[k].severity == severity
  }

  function OutcomeOf(findings: seq<MatchFinding>): Outcome {
    if HasSeverity(findings, Error) then Mismatch
    else if HasSeverity(findings, Warn) then Tolerable
    else Match
  }

  function MatchedAgainst(invoice: InvoiceForMatch, po: PoForMatch, gr: Option<GrForMatch>): MatchResult {
    var b := Basis(PoLines(po.lines), Received(gr));
    var findings := HeaderFindings(invoice, po) + Findings(invoice.lines, b);
    MatchResult(OutcomeOf(findings), findings, Min(1.0, Worst(Ratios(invoice.lines, b))))
  }

  function Matched(invoice: InvoiceForMatch, po: Option<PoForMatch>, gr: Option<GrForMatch>): MatchResult {
    if po.None? || invoice.poNumber.None? then MatchResult(Mismatch, [Problem(MissingPo, None, None)], 1.0)
    else MatchedAgainst(invoice, po.value, gr)
  }

  // ------------------------------------------------------------------ the loop

  method MatchLine(line: InvoiceLine, b: Basis, findings: seq<MatchFinding>, ratios: seq<real>)
    returns (findings': seq<MatchFinding>, ratios': seq<real>)
    ensures findings' == findings + OneLineFindings(line, b)
    ensures ratios' == ratios + OneLineRatios(line, b)
  {
    findings', ratios' := findings, ratios;
    if line.lineNo !in b.po {
      findings' := findings' + [Problem(LineNotOnPo, Some(line.lineNo), None)];
      return;
    }
    var poLine := b.po[line.lineNo];
    var finding: Option<MatchFinding>;
    if line.lineNo !in b.received {
      findings' := findings' + [Problem(GrLineMissing, Some(line.lineNo), None)];
    } else {
      finding, ratios' := CheckQty(line, b.received[line.lineNo], ratios');
      findings' := findings' + Listed(finding);
    }
    finding, ratios' := CheckPrice(line, poLine, ratios');
    findings' := findings' + Listed(finding);
    if UpperDiffers(line.uom, poLine.uom) {
      findings' := findings' + [Problem(UomMm, Some(line.lineNo), None)];
    }
  }

  method Match3Way(invoice: InvoiceForMatch, po: Option<PoForMatch>, gr: Option<GrForMatch>)
    returns (r: MatchResult)
    ensures r == Matched(invoice, po, gr)
  {
    if po.None? || invoice.poNumber.None? {
      return MatchResult(Mismatch, [Problem(MissingPo, None, None)], 1.0);
    }
    var b := Basis(PoLines(po.value.lines), Received(gr));
    var header := HeaderFindings(invoice, po.value);
    var lineFindings: seq<MatchFinding>, ratios: seq<real> := [], [];
    for i := 0 to |invoice.lines|
      invariant lineFindings == Findings(invoice.lines[..i], b)
      invariant ratios == Ratios(invoice.lines[..i], b)
    {
      assert invoice.lines[..i + 1] == invoice.lines[..i] + [invoice.lines[i]];
      FindingsOfAppended(invoice.lines[..i], invoice.lines[i], b);
      lineFindings, ratios := MatchLine(invoice.lines[i], b, lineFindings, ratios);
    }
    assert invoice.lines[..|invoice.lines|] == invoice.lines;
    var findings := header + lineFindings;
    var outcome := if exists k :: 0 <= k < |findings| && findings[k].severity == Error then Mismatch
                   else if exists k :: 0 <= k < |findings| && findings[k].severity == Warn then Tolerable
                   else Match;
    var worst := Worst(ratios);
    r := MatchResult(outcome, findings, Min(1.0, worst));
  }

  /** The matcher's view of an extraction; an absent figure reads as zero. */
  function InvoiceLineOf(line: ExtractionLine): InvoiceLine {
    InvoiceLine(line.lineNo, OrZero(line.qty), line.uom, OrZero(line.unitPrice))
  }

  function InvoiceLinesOf(lines: seq<ExtractionLine>): seq<InvoiceLine> {
    seq(|lines|, i requires 0 <= i < |lines| => InvoiceLineOf(lines[i]))
  }

  function InvoiceOf(x: InvoiceExtraction): InvoiceForMatch {
    InvoiceForMatch(x.vendorName, x.poNumber, x.currency, InvoiceLinesOf(x.lines))
  }
}
