/** The synthetic ERP: purchase orders with their full receipts, the invoice a clean supplier would
    send for one, and why such an invoice passes every deterministic check. */
module Erp {
  import opened Common
  import opened Extraction
  import Iban
  import Matching
  import MatchingLaws
  import NearDup
  import Text
  import Validation

  datatype ErpVendor = ErpVendor(name: string, currency: string, iban: string)

  datatype ErpPoLine = ErpPoLine(
    lineNo: string, description: string, qty: real, uom: string, unitPrice: real, taxCode: string)

  datatype ErpPurchaseOrder = ErpPurchaseOrder(
    poNumber: string, vendorName: string, currency: string, status: string, lines: seq<ErpPoLine>, orderedAt: int)

  datatype ErpGoodsReceipt = ErpGoodsReceipt(
    grNumber: string, poNumber: string, received: seq<Matching.Receipt>, receivedAt: int)

  const STALE_PO_DAYS := 90
  const UOM_EACH: seq<string> := ["EA", "PCS", "BOX"]
  const UOM_FRACTIONAL: seq<string> := ["KG", "M"]

  predicate IsCurrency(currency: string) {
    currency == "EUR" || currency == "USD" || currency == "GBP"
  }

  // ------------------------------------------------------------------ the generator's draws

  /** The random draws behind one order line; each range is the one the generator asks for. */
  datatype LineDraw = LineDraw(
    fractional: bool, tenths: nat, units: nat, cents: nat, standardTax: bool, reducedTax: bool,
    uom: nat, description: string)

  predicate LineDrawInRange(d: LineDraw) {
    && 1 <= d.tenths < 500 && 1 <= d.units <= 50 && 100 <= d.cents < 100000
    && d.uom < if d.fractional then |UOM_FRACTIONAL| else |UOM_EACH|
  }

  datatype OrderDraw = OrderDraw(
    closed: bool, stale: bool, staleDays: nat, freshDays: nat, transit: nat, lines: seq<LineDraw>)

  predicate OrderDrawInRange(d: OrderDraw) {
    && STALE_PO_DAYS + 1 <= d.staleDays <= 365 && 1 <= d.freshDays <= STALE_PO_DAYS && 1 <= d.transit <= 14
    && 1 <= |d.lines| <= 4
    && forall k :: 0 <= k < |d.lines| ==> LineDrawInRange(d.lines[k])
  }

  // ------------------------------------------------------------------ the generator

  function PoLine(d: LineDraw, lineNo: nat): ErpPoLine
    requires LineDrawInRange(d)
  {
    ErpPoLine(
      NearDup.NatString(lineNo),
      d.description,
      if d.fractional then d.tenths as real / 10.0 else d.units as real,
      if d.fractional then UOM_FRACTIONAL[d.uom] else UOM_EACH[d.uom],
      d.cents as real / 100.0,
      if d.standardTax then "S" else if d.reducedTax then "R" else "Z")
  }

  function PoLines(draws: seq<LineDraw>): seq<ErpPoLine>
    requires forall k :: 0 <= k < |draws| ==> LineDrawInRange(draws[k])
  {
    seq(|draws|, k requires 0 <= k < |draws| => PoLine(draws[k], k + 1))
  }

  function FullReceipt(lines: seq<ErpPoLine>): seq<Matching.Receipt> {
    seq(|lines|, k requires 0 <= k < |lines| => Matching.Receipt(lines[k].lineNo, lines[k].qty))
  }

  function ZeroPadded(n: nat, width: nat): string {
    var digits := NearDup.NatString(n);
    if |digits| >= width then digits else seq(width - |digits|, k => '0') + digits
  }

  function Numbered(prefix: string, year: nat, seqNo: nat): string {
    prefix + "-" + NearDup.NatString(year) + "-" + ZeroPadded(seqNo, 5)
  }

  /** One order and its full receipt. */
  function PoWithReceipt(d: OrderDraw, year: nat, seqNo: nat, vendor: ErpVendor, referenceDate: int)
    : (ErpPurchaseOrder, ErpGoodsReceipt)
    requires OrderDrawInRange(d)
  {
    var orderedAt := referenceDate - if d.stale then d.staleDays else d.freshDays;
    var age := referenceDate - orderedAt;
    var lines := PoLines(d.lines);
    var po := ErpPurchaseOrder(
      Numbered("PO", year, seqNo), vendor.name, vendor.currency, if d.closed then "CLOSED" else "OPEN", lines,
      orderedAt);
    var receivedAt := orderedAt + if d.transit <= age then d.transit else age;
    (po, ErpGoodsReceipt(Numbered("GR", year, seqNo), po.poNumber, FullReceipt(lines), receivedAt))
  }

  // ------------------------------------------------------------------ the ground truth

  predicate LineTrue(line: ErpPoLine) {
    line.qty > 0.0 && line.unitPrice > 0.0 && Validation.TaxRate(line.taxCode).Some?
  }

  predicate DistinctLines(lines: seq<ErpPoLine>) {
    forall j, k :: 0 <= j < k < |lines| ==> lines[j].lineNo != lines[k].lineNo
  }

  /** What every generated order and receipt satisfies. */
  predicate GroundTruth(po: ErpPurchaseOrder, gr: ErpGoodsReceipt, vendor: ErpVendor, referenceDate: int) {
    && 1 <= |po.lines| <= 4 && DistinctLines(po.lines)
    && (forall k :: 0 <= k < |po.lines| ==> LineTrue(po.lines[k]))
    && po.poNumber != "" && gr.poNumber == po.poNumber && gr.received == FullReceipt(po.lines)
    && po.orderedAt <= gr.receivedAt <= referenceDate
    && po.vendorName == vendor.name && po.currency == vendor.currency
    && (po.status == "OPEN" || po.status == "CLOSED")
  }

  lemma {:induction false} NatStringInjective(m: nat, n: nat)
    requires NearDup.NatString(m) == NearDup.NatString(n)
    ensures m == n
  {
    var a, b := NearDup.NatString(m), NearDup.NatString(n);
    NatStringLength(m);
    NatStringLength(n);
    assert a[|a| - 1] == b[|b| - 1];
    if m >= 10 && n >= 10 {
      assert a[..|a| - 1] == NearDup.NatString(m / 10);
      assert b[..|b| - 1] == NearDup.NatString(n / 10);
      NatStringInjective(m / 10, n / 10);
    }
  }

  lemma {:induction false} NatStringLength(n: nat)
    ensures |NearDup.NatString(n)| >= 1
    ensures n < 10 <==> |NearDup.NatString(n)| == 1
    ensures NearDup.NatString(n)[|NearDup.NatString(n)| - 1] == ('0' as int + n % 10) as char
  {
    if n >= 10 { NatStringLength(n / 10); }
  }

  lemma LineNumbersDistinct(draws: seq<LineDraw>)
    requires forall k :: 0 <= k < |draws| ==> LineDrawInRange(draws[k])
    ensures DistinctLines(PoLines(draws))
  {
    var lines := PoLines(draws);
    forall j, k | 0 <= j < k < |lines| ensures lines[j].lineNo != lines[k].lineNo {
      if lines[j].lineNo == lines[k].lineNo { NatStringInjective(j + 1, k + 1); }
    }
  }

  /** Whatever the draws, a generated order satisfies the ground truth. */
  lemma GeneratedIsTrue(d: OrderDraw, year: nat, seqNo: nat, vendor: ErpVendor, referenceDate: int)
    requires OrderDrawInRange(d)
    ensures var r := PoWithReceipt(d, year, seqNo, vendor, referenceDate);
            && GroundTruth(r.0, r.1, vendor, referenceDate)
            && (r.0.status == "CLOSED" <==> d.closed)
            && (referenceDate - r.0.orderedAt > 90 <==> d.stale)
            && |r.0.lines| == |d.lines|
  {
    assert |"CLOSED"| == 6 && |"OPEN"| == 4;
    assert |Numbered("PO", year, seqNo)| >= 2;
    hide Numbered, NearDup.NatString;
    LineNumbersDistinct(d.lines);
    var lines := PoLines(d.lines);
    forall k | 0 <= k < |lines| ensures LineTrue(lines[k]) {
      assert LineDrawInRange(d.lines[k]);
    }
  }

  /** The figures of line `k` are the ones drawn, in tenths, units and cents; the goods arrive after the drawn
      transit, but not after the reference date, and in full. */
  lemma GeneratedAsDrawn(d: OrderDraw, year: nat, seqNo: nat, vendor: ErpVendor, referenceDate: int, k: nat)
    requires OrderDrawInRange(d) && k < |d.lines|
    ensures var r, draw := PoWithReceipt(d, year, seqNo, vendor, referenceDate), d.lines[k];
            && k < |r.0.lines| == |r.1.received|
            && var line := r.0.lines[k];
            && (if draw.fractional then 10.0 * line.qty == draw.tenths as real else line.qty == draw.units as real)
            && 100.0 * line.unitPrice == draw.cents as real
            && (line.taxCode == "S" <==> draw.standardTax)
            && (line.taxCode == "R" <==> !draw.standardTax && draw.reducedTax)
            && r.1.received[k] == Matching.Receipt(line.lineNo, line.qty)
            && r.1.receivedAt <= r.0.orderedAt + d.transit && r.1.receivedAt <= referenceDate
            && (r.1.receivedAt == r.0.orderedAt + d.transit || r.1.receivedAt == referenceDate)
  {
    hide Numbered, NearDup.NatString;
    assert LineDrawInRange(d.lines[k]);
    TaxCodesDiffer();
  }

  lemma TaxCodesDiffer()
    ensures "S" != "R" && "S" != "Z" && "R" != "Z"
  {
    assert "S"[0] == 'S' && "R"[0] == 'R' && "Z"[0] == 'Z';
  }

  lemma NatStringSplits(n: nat) returns (head: string, d: char)
    ensures NearDup.NatString(n) == head + [d] && Text.IsDigit(d)
    ensures n < 10 ==> head == "" && Iban.CharValue(d) == n
    ensures n >= 10 ==> head == NearDup.NatString(n / 10) && Iban.CharValue(d) == n % 10
  {
    head, d := if n < 10 then "" else NearDup.NatString(n / 10), ('0' as int + n % 10) as char;
  }

  lemma DecimalPlaces(n: nat)
    ensures 10 * (n / 10) + n % 10 == n
  {}

  lemma {:induction false} NatStringIsTheNumber(n: nat)
    ensures Iban.AllDigits(NearDup.NatString(n)) && Iban.Number(NearDup.NatString(n)) == n
  {
    var head, d := NatStringSplits(n);
    hide NearDup.NatString;
    if n >= 10 {
      NatStringIsTheNumber(n / 10);
      DecimalPlaces(n);
    }
    Iban.NumberOfAppended(head, d);
  }

  lemma PaddedIsTheNumber(n: nat, width: nat)
    ensures Iban.AllDigits(ZeroPadded(n, width)) && Iban.Number(ZeroPadded(n, width)) == n
  {
    hide NearDup.NatString, Iban.Number;
    NatStringIsTheNumber(n);
    if |NearDup.NatString(n)| < width { LeadingZeros(width - |NearDup.NatString(n)|, NearDup.NatString(n)); }
  }

  lemma {:induction false} LeadingZeros(zeros: nat, s: string)
    requires Iban.AllDigits(s)
    ensures Iban.AllDigits(seq(zeros, k => '0') + s)
    ensures Iban.Number(seq(zeros, k => '0') + s) == Iban.Number(s)
  {
    var pad := seq(zeros, k => '0');
    if s != "" {
      var init := s[..|s| - 1];
      LeadingZeros(zeros, init);
      assert pad + s == pad + init + [s[|s| - 1]] && s == init + [s[|s| - 1]];
      Iban.NumberOfAppended(pad + init, s[|s| - 1]);
      Iban.NumberOfAppended(init, s[|s| - 1]);
    } else if zeros > 0 {
      LeadingZeros(zeros - 1, s);
      assert pad + s == seq(zeros - 1, k => '0') + s + ['0'];
      Iban.NumberOfAppended(seq(zeros - 1, k => '0') + s, '0');
    }
  }

  /** Order and receipt numbers never repeat within a year. */
  lemma NumberedInjective(prefix: string, year: nat, m: nat, n: nat)
    requires Numbered(prefix, year, m) == Numbered(prefix, year, n)
    ensures m == n
  {
    hide NearDup.NatString, Iban.Number, ZeroPadded;
    var head := prefix + "-" + NearDup.NatString(year) + "-";
    assert Numbered(prefix, year, m)[|head|..] == ZeroPadded(m, 5);
    assert Numbered(prefix, year, n)[|head|..] == ZeroPadded(n, 5);
    PaddedIsTheNumber(m, 5);
    PaddedIsTheNumber(n, 5);
  }

  predicate Drawn(draws: seq<OrderDraw>, picks: seq<nat>, vendors: seq<ErpVendor>) {
    |picks| == |draws| && forall k :: 0 <= k < |draws| ==> OrderDrawInRange(draws[k]) && picks[k] < |vendors|
  }

  function RowAt(draws: seq<OrderDraw>, picks: seq<nat>, vendors: seq<ErpVendor>, year: nat, referenceDate: int, k: nat)
    : (ErpPurchaseOrder, ErpGoodsReceipt)
    requires Drawn(draws, picks, vendors) && k < |draws|
  {
    PoWithReceipt(draws[k], year, k + 1, vendors[picks[k]], referenceDate)
  }

  lemma RowsAreTrue(
    draws: seq<OrderDraw>, picks: seq<nat>, vendors: seq<ErpVendor>, year: nat, referenceDate: int, k: nat)
    requires Drawn(draws, picks, vendors) && k < |draws|
    ensures var row := RowAt(draws, picks, vendors, year, referenceDate, k);
            && GroundTruth(row.0, row.1, vendors[picks[k]], referenceDate)
            && row.0.poNumber == Numbered("PO", year, k + 1) && row.1.grNumber == Numbered("GR", year, k + 1)
  {
    hide Numbered, GroundTruth, PoLines, FullReceipt;
    GeneratedIsTrue(draws[k], year, k + 1, vendors[picks[k]], referenceDate);
  }

  lemma RowNumbersDiffer(
    draws: seq<OrderDraw>, picks: seq<nat>, vendors: seq<ErpVendor>, year: nat, referenceDate: int, j: nat, k: nat)
    requires Drawn(draws, picks, vendors) && j < k < |draws|
    ensures var r, t := RowAt(draws, picks, vendors, year, referenceDate, j),
                        RowAt(draws, picks, vendors, year, referenceDate, k);
            r.0.poNumber != t.0.poNumber && r.1.grNumber != t.1.grNumber
  {
    hide Numbered, GroundTruth, RowAt;
    RowsAreTrue(draws, picks, vendors, year, referenceDate, j);
    RowsAreTrue(draws, picks, vendors, year, referenceDate, k);
    if Numbered("PO", year, j + 1) == Numbered("PO", year, k + 1) { NumberedInjective("PO", year, j + 1, k + 1); }
    if Numbered("GR", year, j + 1) == Numbered("GR", year, k + 1) { NumberedInjective("GR", year, j + 1, k + 1); }
  }

  /** The order loop of the generator: every row is ground truth, and no number repeats. */
  method GenerateOrders(
    vendors: seq<ErpVendor>, draws: seq<OrderDraw>, picks: seq<nat>, year: nat, referenceDate: int)
    returns (orders: seq<ErpPurchaseOrder>, receipts: seq<ErpGoodsReceipt>)
    requires Drawn(draws, picks, vendors)
    ensures |orders| == |draws| && |receipts| == |draws|
    ensures forall k :: 0 <= k < |draws| ==> GroundTruth(orders[k], receipts[k], vendors[picks[k]], referenceDate)
    ensures forall j, k :: 0 <= j < k < |draws| ==>
              orders[j].poNumber != orders[k].poNumber && receipts[j].grNumber != receipts[k].grNumber
  {
    hide GroundTruth, PoWithReceipt, RowAt;
    orders, receipts := [], [];
    for i := 0 to |draws|
      invariant |orders| == i && |receipts| == i
      invariant forall k :: 0 <= k < i ==>
                  (orders[k], receipts[k]) == RowAt(draws, picks, vendors, year, referenceDate, k)
    {
      var row := RowAt(draws, picks, vendors, year, referenceDate, i);
      orders, receipts := orders + [row.0], receipts + [row.1];
    }
    forall k | 0 <= k < |draws| ensures GroundTruth(orders[k], receipts[k], vendors[picks[k]], referenceDate) {
      RowsAreTrue(draws, picks, vendors, year, referenceDate, k);
      assert (orders[k], receipts[k]) == RowAt(draws, picks, vendors, year, referenceDate, k);
    }
    forall j, k | 0 <= j < k < |draws|
      ensures orders[j].poNumber != orders[k].poNumber && receipts[j].grNumber != receipts[k].grNumber
    {
      RowNumbersDiffer(draws, picks, vendors, year, referenceDate, j, k);
      assert (orders[j], receipts[j]) == RowAt(draws, picks, vendors, year, referenceDate, j);
      assert (orders[k], receipts[k]) == RowAt(draws, picks, vendors, year, referenceDate, k);
    }
  }

  // ------------------------------------------------------------------ the clean invoice

  function LineTotal(line: ErpPoLine): real {
    line.qty * line.unitPrice
  }

  function NetTotal(lines: seq<ErpPoLine>): real {
    if lines == [] then 0.0 else NetTotal(lines[..|lines| - 1]) + LineTotal(lines[|lines| - 1])
  }

  function RateOf(taxCode: string): real {
    OrZero(Validation.TaxRate(taxCode))
  }

  function TaxTotal(lines: seq<ErpPoLine>): real {
    if lines == [] then 0.0
    else TaxTotal(lines[..|lines| - 1]) + LineTotal(lines[|lines| - 1]) * RateOf(lines[|lines| - 1].taxCode)
  }

  function CleanLine(line: ErpPoLine): ExtractionLine {
    ExtractionLine(line.lineNo, Some(line.description), Some(line.qty), Some(line.uom), Some(line.unitPrice),
                   Some(line.taxCode), Some(LineTotal(line)))
  }

  function CleanLines(lines: seq<ErpPoLine>): seq<ExtractionLine> {
    seq(|lines|, k requires 0 <= k < |lines| => CleanLine(lines[k]))
  }

  /** The extraction of a clean invoice against an order; only the confidences are the extractor's. */
  function CleanInvoiceFor(
    po: ErpPurchaseOrder, vendor: ErpVendor, invoiceNumber: string, issueDate: int, confidences: seq<Confidence>)
    : InvoiceExtraction
  {
    InvoiceExtraction(
      Some(vendor.name), Some(invoiceNumber), Some(po.poNumber), Some(issueDate), Some(issueDate + 30),
      Some(po.currency), Some(NetTotal(po.lines)), Some(TaxTotal(po.lines)), Some(vendor.iban),
      CleanLines(po.lines), confidences)
  }

  function ForMatch(po: ErpPurchaseOrder): Matching.PoForMatch {
    Matching.PoForMatch(
      po.poNumber, Some(po.vendorName), Some(po.currency),
      seq(|po.lines|, k requires 0 <= k < |po.lines| =>
        Matching.PoLine(po.lines[k].lineNo, po.lines[k].qty, Some(po.lines[k].uom), po.lines[k].unitPrice)))
  }

  function ReceiptForMatch(gr: ErpGoodsReceipt): Matching.GrForMatch {
    Matching.GrForMatch(gr.grNumber, gr.received)
  }

  // ------------------------------------------------------------------ it validates

  lemma {:induction false} CleanSums(lines: seq<ErpPoLine>)
    requires forall k :: 0 <= k < |lines| ==> LineTrue(lines[k])
    ensures Validation.StatedSum(CleanLines(lines)) == NetTotal(lines)
    ensures Validation.ExpectedTax(CleanLines(lines)) == TaxTotal(lines)
    ensures Validation.LineFindings(CleanLines(lines)) == []
  {
    hide LineTotal;
    if lines != [] {
      var n := |lines| - 1;
      assert CleanLines(lines)[..n] == CleanLines(lines[..n]);
      CleanSums(lines[..n]);
      CleanLineAddsUp(lines[n]);
      assert LineTrue(lines[n]);
    }
  }

  lemma CleanLineAddsUp(line: ErpPoLine)
    ensures !Validation.LineBroken(CleanLine(line))
  {}

  lemma CurrenciesAreShaped(currency: string)
    requires IsCurrency(currency)
    ensures Validation.CurrencyShaped(currency)
  {}

  lemma NothingMissing(x: InvoiceExtraction)
    requires x.vendorName.Some? && x.invoiceNumber.Some? && x.issueDate.Some? && x.dueDate.Some?
    requires x.currency.Some? && x.totalAmount.Some? && x.iban.Some?
    ensures Validation.RequiredFieldFindings(x) == []
  {
    Validation.MissingAmongMeaning(x, Validation.REQUIRED_ERROR_FIELDS, Validation.Error);
    Validation.MissingAmongMeaning(x, Validation.REQUIRED_WARN_FIELDS, Validation.Warn);
    hide Validation.MissingAmong;
  }

  /** A clean invoice gives no validation finding at all, not even a warning. */
  lemma CleanInvoiceValidates(
    po: ErpPurchaseOrder, gr: ErpGoodsReceipt, vendor: ErpVendor, referenceDate: int, bban: string,
    invoiceNumber: string, issueDate: int, confidences: seq<Confidence>)
    requires GroundTruth(po, gr, vendor, referenceDate) && IsCurrency(vendor.currency)
    requires |bban| == 18 && Iban.AllDigits(bban) && vendor.iban == Iban.GermanIban(bban)
    ensures Validation.Report(CleanInvoiceFor(po, vendor, invoiceNumber, issueDate, confidences)) == []
  {
    hide Validation.RequiredFieldFindings, Validation.CheckIban, Iban.GermanIban, Validation.StatedSum, NetTotal,
         TaxTotal, Validation.ExpectedTax, Validation.LineFindings, Validation.CurrencyShaped, FullReceipt;
    var x := CleanInvoiceFor(po, vendor, invoiceNumber, issueDate, confidences);
    NothingMissing(x);
    CurrenciesAreShaped(vendor.currency);
    Validation.GeneratedIbanPasses(bban);
    CleanSums(po.lines);
    assert Validation.Taxed(x.lines[0]);
    assert forall k :: 0 <= k < |x.lines| ==> LineTrue(po.lines[k]) && x.lines[k] == CleanLine(po.lines[k]);
    assert !Validation.UnknownTaxCode(x.lines);
    assert Validation.CheckTax(x) == None;
  }

  // ------------------------------------------------------------------ it matches

  predicate DistinctPoLines(lines: seq<Matching.PoLine>) {
    forall j, k :: 0 <= j < k < |lines| ==> lines[j].lineNo != lines[k].lineNo
  }

  predicate DistinctReceipts(receipts: seq<Matching.Receipt>) {
    forall j, k :: 0 <= j < k < |receipts| ==> receipts[j].lineNo != receipts[k].lineNo
  }

  lemma {:induction false} PoLineIsFound(lines: seq<Matching.PoLine>, k: nat)
    requires DistinctPoLines(lines) && k < |lines|
    ensures lines[k].lineNo in Matching.PoLines(lines) && Matching.PoLines(lines)[lines[k].lineNo] == lines[k]
  {
    var n := |lines| - 1;
    if k < n { PoLineIsFound(lines[..n], k); }
  }

  lemma {:induction false} ReceiptIsFound(receipts: seq<Matching.Receipt>, k: nat)
    requires DistinctReceipts(receipts) && k < |receipts|
    ensures receipts[k].lineNo in Matching.ReceivedQty(receipts)
    ensures Matching.ReceivedQty(receipts)[receipts[k].lineNo] == receipts[k].qty
  {
    var n := |receipts| - 1;
    if k < n { ReceiptIsFound(receipts[..n], k); }
  }

  lemma CleanLinesAgree(po: ErpPurchaseOrder, gr: ErpGoodsReceipt)
    requires DistinctLines(po.lines) && gr.received == FullReceipt(po.lines)
    ensures var b := MatchingLaws.BasisOf(ForMatch(po), Some(ReceiptForMatch(gr)));
            var lines := Matching.InvoiceLinesOf(CleanLines(po.lines));
            MatchingLaws.LinesAgree(lines, b) && MatchingLaws.PricesEqual(lines, b)
  {
    hide Matching.PoLines, Matching.ReceivedQty, MatchingLaws.SameIfKnown;
    var b := MatchingLaws.BasisOf(ForMatch(po), Some(ReceiptForMatch(gr)));
    var lines := Matching.InvoiceLinesOf(CleanLines(po.lines));
    forall k | 0 <= k < |lines|
      ensures MatchingLaws.LineAgrees(lines[k], b) && lines[k].unitPrice == b.po[lines[k].lineNo].unitPrice
    {
      PoLineIsFound(ForMatch(po).lines, k);
      ReceiptIsFound(gr.received, k);
      SameUom(Some(po.lines[k].uom));
    }
  }

  lemma SameUom(a: Option<string>)
    ensures MatchingLaws.SameIfKnown(a, a)
  {}

  /** A clean invoice matches perfectly: no finding, and no drift. */
  lemma CleanInvoiceMatches(
    po: ErpPurchaseOrder, gr: ErpGoodsReceipt, vendor: ErpVendor, referenceDate: int,
    invoiceNumber: string, issueDate: int, confidences: seq<Confidence>)
    requires GroundTruth(po, gr, vendor, referenceDate)
    ensures Matching.Matched(
              Matching.InvoiceOf(CleanInvoiceFor(po, vendor, invoiceNumber, issueDate, confidences)),
              Some(ForMatch(po)), Some(ReceiptForMatch(gr)))
         == Matching.MatchResult(Matching.Match, [], 0.0)
  {
    hide Matching.MatchedAgainst, MatchingLaws.LinesAgree, MatchingLaws.PricesEqual, MatchingLaws.BasisOf, NetTotal,
         CleanLines, TaxTotal, FullReceipt, DistinctLines, LineTrue;
    var invoice := Matching.InvoiceOf(CleanInvoiceFor(po, vendor, invoiceNumber, issueDate, confidences));
    CleanLinesAgree(po, gr);
    Text.NameIsItself(vendor.name);
    Text.NameIsItself(po.currency);
    hide Text.SameName, Text.SameLetters;
    MatchingLaws.VerdictMeaning(invoice, Some(ForMatch(po)), Some(ReceiptForMatch(gr)));
    MatchingLaws.DeltaOfOutcome(invoice, Some(ForMatch(po)), Some(ReceiptForMatch(gr)));
  }
}
