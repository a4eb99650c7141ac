/** Every finding of the three-way matcher, and its delta, traced back to the documents. */
module MatchingReasons {
  import opened Common
  import opened Matching
  import opened MatchingLaws
  import opened Text
  import Extraction

  // ------------------------------------------------------------------ what the documents say about a line

  /** Entry `k` is the last one the order lists under this number. */
  predicate OrderedAt(lines: seq<PoLine>, no: string, k: nat) {
    k < |lines| && lines[k].lineNo == no && forall j :: k < j < |lines| ==> lines[j].lineNo != no
  }

  predicate NotOrdered(lines: seq<PoLine>, no: string) {
    forall k :: 0 <= k < |lines| ==> lines[k].lineNo != no
  }

  function Receipts(gr: Option<GrForMatch>): seq<Receipt> {
    if gr.Some? then gr.value.received else []
  }

  /** Entry `k` is the last one the receipts list under this number. */
  predicate ReceivedAt(receipts: seq<Receipt>, no: string, k: nat) {
    k < |receipts| && receipts[k].lineNo == no && forall j :: k < j < |receipts| ==> receipts[j].lineNo != no
  }

  predicate NotReceived(receipts: seq<Receipt>, no: string) {
    forall k :: 0 <= k < |receipts| ==> receipts[k].lineNo != no
  }

  /** The order is looked up under the last entry of a number. */
  lemma {:induction false} OrderLookup(lines: seq<PoLine>, no: string)
    ensures no !in PoLines(lines) <==> NotOrdered(lines, no)
    ensures no in PoLines(lines) ==> exists k: nat :: OrderedAt(lines, no, k)
    ensures forall k: nat :: OrderedAt(lines, no, k) ==> no in PoLines(lines) && PoLines(lines)[no] == lines[k]
  {
    if lines != [] {
      var n := |lines| - 1;
      OrderLookup(lines[..n], no);
      if lines[n].lineNo == no {
        assert OrderedAt(lines, no, n);
        assert forall k: nat :: OrderedAt(lines, no, k) ==> k == n;
      } else {
        assert forall k: nat :: OrderedAt(lines, no, k) <==> OrderedAt(lines[..n], no, k);
        assert forall k :: 0 <= k < n ==> lines[..n][k] == lines[k];
      }
    }
  }

  lemma {:induction false} ReceiptLookup(receipts: seq<Receipt>, no: string)
    ensures no !in ReceivedQty(receipts) <==> NotReceived(receipts, no)
    ensures no in ReceivedQty(receipts) ==> exists k: nat :: ReceivedAt(receipts, no, k)
    ensures forall k: nat :: ReceivedAt(receipts, no, k) ==>
              no in ReceivedQty(receipts) && ReceivedQty(receipts)[no] == receipts[k].qty
  {
    if receipts != [] {
      var n := |receipts| - 1;
      ReceiptLookup(receipts[..n], no);
      if receipts[n].lineNo == no {
        assert ReceivedAt(receipts, no, n);
        assert forall k: nat :: ReceivedAt(receipts, no, k) ==> k == n;
      } else {
        assert forall k: nat :: ReceivedAt(receipts, no, k) <==> ReceivedAt(receipts[..n], no, k);
        assert forall k :: 0 <= k < n ==> receipts[..n][k] == receipts[k];
      }
    }
  }

  // ------------------------------------------------------------------ why a finding is there

  ghost predicate HeaderReason(invoice: InvoiceForMatch, po: PoForMatch, f: MatchFinding) {
    || (f == MatchFinding(VendorMm, Error, None, None)
        && invoice.vendorName.Some? && po.vendorName.Some?
        && !SameName(invoice.vendorName.value, po.vendorName.value))
    || (f == MatchFinding(CcyMm, Error, None, None)
        && invoice.currency.Some? && po.currency.Some?
        && !SameLetters(invoice.currency.value, po.currency.value))
  }

  /** The order's line compared with the invoice's: its price, and its unit of measure. */
  predicate OrderReason(line: InvoiceLine, ordered: PoLine, f: MatchFinding) {
    var no, delta := Some(line.lineNo), line.unitPrice - ordered.unitPrice;
    var band := AllowedDrift(ordered.unitPrice);
    || (f == MatchFinding(PriceDrift, Warn, no, Some(delta)) && delta != 0.0 && -band <= delta <= band)
    || (f == MatchFinding(PriceMm, Error, no, Some(delta)) && (delta > band || delta < -band))
    || (f == MatchFinding(UomMm, Error, no, None)
        && line.uom.Some? && ordered.uom.Some? && !SameLetters(line.uom.value, ordered.uom.value))
  }

  ghost predicate ReceiptReason(line: InvoiceLine, receipts: seq<Receipt>, f: MatchFinding) {
    var no := Some(line.lineNo);
    || (f == MatchFinding(GrLineMissing, Error, no, None) && NotReceived(receipts, line.lineNo))
    || (exists r: nat :: ReceivedAt(receipts, line.lineNo, r) && line.qty > receipts[r].qty
          && f == MatchFinding(QtyMm, Error, no, Some(line.qty - receipts[r].qty)))
  }

  /** A line that is not on the order is only reported as that. */
  ghost predicate LineReason(line: InvoiceLine, po: PoForMatch, gr: Option<GrForMatch>, f: MatchFinding) {
    if NotOrdered(po.lines, line.lineNo) then f == MatchFinding(LineNotOnPo, Error, Some(line.lineNo), None)
    else
      || ReceiptReason(line, Receipts(gr), f)
      || exists k: nat :: OrderedAt(po.lines, line.lineNo, k) && OrderReason(line, po.lines[k], f)
  }

  lemma QtyFindingsHaveReasons(line: InvoiceLine, po: PoForMatch, gr: Option<GrForMatch>, f: MatchFinding)
    ensures f in QtyFindings(line, BasisOf(po, gr)) <==> ReceiptReason(line, Receipts(gr), f)
  {
    ReceiptLookup(Receipts(gr), line.lineNo);
    assert Received(gr) == ReceivedQty(Receipts(gr));
    hide ReceivedQty, PoLines;
  }

  lemma OrderFindingsHaveReasons(line: InvoiceLine, ordered: PoLine, f: MatchFinding)
    ensures f in Listed(PriceFinding(line, ordered))
                 + (if UpperDiffers(line.uom, ordered.uom) then [Problem(UomMm, Some(line.lineNo), None)] else [])
       <==> OrderReason(line, ordered, f)
  {
    CodesMean(line.uom, ordered.uom);
    BandMeans(line.unitPrice - ordered.unitPrice, ordered.unitPrice);
    hide SameLetters, Upper, AllowedDrift, PriceBand;
  }

  lemma LineFindingsHaveReasons(line: InvoiceLine, po: PoForMatch, gr: Option<GrForMatch>, f: MatchFinding)
    ensures f in OneLineFindings(line, BasisOf(po, gr)) <==> LineReason(line, po, gr, f)
  {
    hide PoLines, Received, QtyFindings, ReceiptReason, OrderReason, PriceFinding, UpperDiffers;
    OrderLookup(po.lines, line.lineNo);
    QtyFindingsHaveReasons(line, po, gr, f);
    if !NotOrdered(po.lines, line.lineNo) {
      OrderFindingsHaveReasons(line, PoLines(po.lines)[line.lineNo], f);
    }
  }

  lemma {:induction false} FindingsAreLineFindings(lines: seq<InvoiceLine>, b: Basis, f: MatchFinding)
    ensures f in Findings(lines, b) <==> exists i :: 0 <= i < |lines| && f in OneLineFindings(lines[i], b)
  {
    if lines != [] {
      var n := |lines| - 1;
      assert lines == lines[..n] + [lines[n]];
      FindingsOfAppended(lines[..n], lines[n], b);
      FindingsAreLineFindings(lines[..n], b, f);
      assert forall i :: 0 <= i < n ==> lines[..n][i] == lines[i];
      hide Findings, OneLineFindings;
    }
  }

  lemma HeaderFindingsHaveReasons(invoice: InvoiceForMatch, po: PoForMatch, f: MatchFinding)
    ensures f in HeaderFindings(invoice, po) <==> HeaderReason(invoice, po, f)
  {
    VendorMeans(invoice, po);
    CodesMean(invoice.currency, po.currency);
    hide SameName, SameLetters, VendorDiffers, UpperDiffers;
  }

  /** The matcher reports exactly what the documents give reason for: nothing is invented and nothing
      overlooked. */
  lemma FindingsHaveReasons(invoice: InvoiceForMatch, po: PoForMatch, gr: Option<GrForMatch>, f: MatchFinding)
    requires invoice.poNumber.Some?
    ensures f in Matched(invoice, Some(po), gr).findings
       <==> HeaderReason(invoice, po, f)
            || exists i :: 0 <= i < |invoice.lines| && LineReason(invoice.lines[i], po, gr, f)
  {
    hide Findings, HeaderFindings, HeaderReason, LineReason, OneLineFindings, Ratios, OutcomeOf;
    HeaderFindingsHaveReasons(invoice, po, f);
    FindingsAreLineFindings(invoice.lines, BasisOf(po, gr), f);
    forall i | 0 <= i < |invoice.lines|
      ensures f in OneLineFindings(invoice.lines[i], BasisOf(po, gr)) <==> LineReason(invoice.lines[i], po, gr, f)
    {
      LineFindingsHaveReasons(invoice.lines[i], po, gr, f);
    }
  }

  /** A different vendor is a mismatch, and the same vendor however spelled is not reported. */
  lemma VendorDecides(invoice: InvoiceForMatch, po: PoForMatch, gr: Option<GrForMatch>)
    requires invoice.poNumber.Some? && invoice.vendorName.Some? && po.vendorName.Some?
    ensures var r, f := Matched(invoice, Some(po), gr), MatchFinding(VendorMm, Error, None, None);
            if SameName(invoice.vendorName.value, po.vendorName.value) then f !in r.findings
            else f in r.findings && r.outcome == Mismatch
  {
    hide SameName, LineReason, Matched, Findings, Ratios;
    var f := MatchFinding(VendorMm, Error, None, None);
    FindingsHaveReasons(invoice, po, gr, f);
    forall i | 0 <= i < |invoice.lines| ensures !LineReason(invoice.lines[i], po, gr, f) {
      LineReasonsAreNumbered(invoice.lines[i], po, gr, f);
    }
    VerdictMeaning(invoice, Some(po), gr);
  }

  lemma LineReasonsAreNumbered(line: InvoiceLine, po: PoForMatch, gr: Option<GrForMatch>, f: MatchFinding)
    requires f.lineNo.None?
    ensures !LineReason(line, po, gr, f)
  {
    hide SameLetters, AllowedDrift;
  }

  /** Without an order, or without a reference to one, the invoice is a full mismatch. */
  lemma NoOrderIsMismatch(invoice: InvoiceForMatch, po: Option<PoForMatch>, gr: Option<GrForMatch>)
    requires po.None? || invoice.poNumber.None?
    ensures Matched(invoice, po, gr)
         == MatchResult(Mismatch, [MatchFinding(MissingPo, Error, None, None)], 1.0)
  {}

  // ------------------------------------------------------------------ where the delta comes from

  /** A drift as a share of the band it is allowed, at most one. */
  function Share(delta: real, band: real): real
    requires band > 0.0
  {
    if delta > band || delta < -band then 1.0 else if delta >= 0.0 then delta / band else -delta / band
  }

  /** What a line on the order adds to the delta: its price drift, and what was invoiced beyond the
      receipt. */
  ghost predicate Contributes(line: InvoiceLine, po: PoForMatch, gr: Option<GrForMatch>, x: real) {
    exists k: nat :: OrderedAt(po.lines, line.lineNo, k) &&
      (x == Share(line.unitPrice - po.lines[k].unitPrice, AllowedDrift(po.lines[k].unitPrice))
       || Overcharged(line, Receipts(gr), x))
  }

  ghost predicate Overcharged(line: InvoiceLine, receipts: seq<Receipt>, x: real) {
    exists r: nat :: ReceivedAt(receipts, line.lineNo, r) && line.qty > receipts[r].qty
      && x == if line.qty - receipts[r].qty > 1.0 then 1.0 else line.qty - receipts[r].qty
  }

  lemma ShareIsRatio(delta: real, price: real)
    ensures Ratio(Abs(delta), PriceBand(price)) == Share(delta, AllowedDrift(price))
  {
    BandMeans(delta, price);
    var band := AllowedDrift(price);
    hide AllowedDrift, PriceBand;
    QuotientAgainstOne(Abs(delta), band);
  }

  lemma QuotientAgainstOne(delta: real, band: real)
    requires band > 0.0 && delta >= 0.0
    ensures delta / band >= 1.0 <==> delta >= band
    ensures delta / band > 1.0 <==> delta > band
    ensures delta / band > 0.0 <==> delta > 0.0
    ensures delta == 0.0 ==> delta / band == 0.0
  {
    var q := delta / band;
    assert q * band == delta;
    if q > 1.0 { ScaleUpStrictly(1.0, q, band); }
    if q < 1.0 { ScaleUpStrictly(q, 1.0, band); }
    if q > 0.0 { ScaleUpStrictly(0.0, q, band); }
    if q < 0.0 { ScaleUpStrictly(q, 0.0, band); }
  }

  lemma ScaleUpStrictly(a: real, c: real, k: real)
    requires a < c && k > 0.0
    ensures a * k < c * k
  {}

  lemma OverchargeIsRatio(line: InvoiceLine, po: PoForMatch, gr: Option<GrForMatch>, x: real)
    ensures var received := BasisOf(po, gr).received;
            (Overcharged(line, Receipts(gr), x)
             <==> line.lineNo in received && line.qty > received[line.lineNo]
                  && x == Ratio(line.qty - received[line.lineNo], 1.0))
  {
    ReceiptLookup(Receipts(gr), line.lineNo);
    assert Received(gr) == ReceivedQty(Receipts(gr));
    hide ReceivedQty, PoLines;
  }

  lemma LineRatiosContribute(line: InvoiceLine, po: PoForMatch, gr: Option<GrForMatch>, x: real)
    ensures x in OneLineRatios(line, BasisOf(po, gr)) <==> Contributes(line, po, gr, x)
  {
    hide PoLines, Received, Overcharged, Ratio, AllowedDrift;
    OrderLookup(po.lines, line.lineNo);
    OverchargeIsRatio(line, po, gr, x);
    if line.lineNo in PoLines(po.lines) {
      var ordered := PoLines(po.lines)[line.lineNo];
      ShareIsRatio(line.unitPrice - ordered.unitPrice, ordered.unitPrice);
    }
  }

  lemma {:induction false} RatiosAreLineRatios(lines: seq<InvoiceLine>, b: Basis, x: real)
    ensures x in Ratios(lines, b) <==> exists i :: 0 <= i < |lines| && x in OneLineRatios(lines[i], b)
  {
    if lines != [] {
      var n := |lines| - 1;
      assert lines == lines[..n] + [lines[n]];
      FindingsOfAppended(lines[..n], lines[n], b);
      RatiosAreLineRatios(lines[..n], b, x);
      assert forall i :: 0 <= i < n ==> lines[..n][i] == lines[i];
      hide Ratios, OneLineRatios;
    }
  }

  lemma RatiosContribute(lines: seq<InvoiceLine>, po: PoForMatch, gr: Option<GrForMatch>, x: real)
    ensures x in Ratios(lines, BasisOf(po, gr))
       <==> exists i :: 0 <= i < |lines| && Contributes(lines[i], po, gr, x)
  {
    hide Ratios, OneLineRatios, Contributes;
    RatiosAreLineRatios(lines, BasisOf(po, gr), x);
    forall i | 0 <= i < |lines|
      ensures x in OneLineRatios(lines[i], BasisOf(po, gr)) <==> Contributes(lines[i], po, gr, x)
    {
      LineRatiosContribute(lines[i], po, gr, x);
    }
  }

  /** The delta is the largest contribution of any line: a bound of all of them, attained by one, and zero
      where there is none. */
  lemma DeltaIsTheLargest(invoice: InvoiceForMatch, po: PoForMatch, gr: Option<GrForMatch>, i: nat, x: real)
    requires invoice.poNumber.Some?
    ensures var delta := Matched(invoice, Some(po), gr).normalizedDelta;
            && (i < |invoice.lines| && Contributes(invoice.lines[i], po, gr, x) ==> x <= delta)
            && (delta == 0.0
                || exists j :: 0 <= j < |invoice.lines| && Contributes(invoice.lines[j], po, gr, delta))
  {
    hide Ratios, Findings, HeaderFindings, Contributes, OutcomeOf;
    var b := BasisOf(po, gr);
    RatiosContribute(invoice.lines, po, gr, x);
    RatiosContribute(invoice.lines, po, gr, Worst(Ratios(invoice.lines, b)));
    RatiosInUnit(invoice.lines, b);
    WorstIsMaximum(Ratios(invoice.lines, b));
    hide Worst;
  }

  /** The matcher's view of an extraction: its own fields, absent figures as zero. */
  lemma InvoiceSeen(x: Extraction.InvoiceExtraction, k: nat)
    ensures InvoiceOf(x).vendorName == x.vendorName && InvoiceOf(x).poNumber == x.poNumber
    ensures InvoiceOf(x).currency == x.currency && |InvoiceOf(x).lines| == |x.lines|
    ensures k < |x.lines| ==>
              var line, seen := x.lines[k], InvoiceOf(x).lines[k];
              && seen.lineNo == line.lineNo && seen.uom == line.uom
              && seen.qty == (if line.qty.Some? then line.qty.value else 0.0)
              && seen.unitPrice == (if line.unitPrice.Some? then line.unitPrice.value else 0.0)
  {}
}
