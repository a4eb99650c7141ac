/** Laws of the three-way matcher: what its verdict means, and that it is a fold
    over the bag of invoice lines. */
module MatchingLaws {
  import opened Common
  import opened Matching
  import opened Text

  // ------------------------------------------------------------------ the verdict without the loop

  /** The drift a unit price may show: two per cent of the order's price, and never less than 0.50. */
  function AllowedDrift(poPrice: real): (band: real)
    ensures band >= 0.50
  {
    if 0.02 * poPrice > 0.50 then 0.02 * poPrice else 0.50
  }

  predicate Within(delta: real, bound: real) {
    -bound <= delta <= bound
  }

  /** Both sides known and equal but for letter case, or one of them unknown. */
  predicate SameIfKnown(a: Option<string>, b: Option<string>) {
    a.Some? && b.Some? ==> SameLetters(a.value, b.value)
  }

  predicate LineAgrees(line: InvoiceLine, b: Basis) {
    && line.lineNo in b.po
    && line.lineNo in b.received
    && line.qty <= b.received[line.lineNo]
    && Within(line.unitPrice - b.po[line.lineNo].unitPrice, AllowedDrift(b.po[line.lineNo].unitPrice))
    && SameIfKnown(line.uom, b.po[line.lineNo].uom)
  }

  ghost predicate HeaderAgrees(invoice: InvoiceForMatch, po: PoForMatch) {
    && (invoice.vendorName.Some? && po.vendorName.Some? ==> SameName(invoice.vendorName.value, po.vendorName.value))
    && SameIfKnown(invoice.currency, po.currency)
  }

  lemma VendorMeans(invoice: InvoiceForMatch, po: PoForMatch)
    ensures VendorDiffers(invoice, po)
       <==> invoice.vendorName.Some? && po.vendorName.Some?
            && !SameName(invoice.vendorName.value, po.vendorName.value)
  {
    hide SameName, Words, Casefold;
    if invoice.vendorName.Some? && po.vendorName.Some? {
      SameNameIff(invoice.vendorName.value, po.vendorName.value);
    }
  }

  lemma CodesMean(a: Option<string>, b: Option<string>)
    ensures UpperDiffers(a, b) <==> !SameIfKnown(a, b)
  {
    if a.Some? && b.Some? { FoldingForgetsCase(a.value, b.value); }
  }

  lemma BandMeans(delta: real, price: real)
    ensures PriceBand(price) == AllowedDrift(price)
    ensures Abs(delta) <= PriceBand(price) <==> Within(delta, AllowedDrift(price))
  {}

  predicate LinesAgree(lines: seq<InvoiceLine>, b: Basis) {
    forall i :: 0 <= i < |lines| ==> LineAgrees(lines[i], b)
  }

  predicate PricesEqual(lines: seq<InvoiceLine>, b: Basis) {
    forall i :: 0 <= i < |lines| ==>
      lines[i].lineNo in b.po && lines[i].unitPrice == b.po[lines[i].lineNo].unitPrice
  }

  function BasisOf(po: PoForMatch, gr: Option<GrForMatch>): Basis {
    Basis(PoLines(po.lines), Received(gr))
  }

  predicate OnlyDrift(findings: seq<MatchFinding>) {
    forall f :: f in findings ==> f.code == PriceDrift && f.severity == Warn
  }

  lemma OnlyDriftConcat(a: seq<MatchFinding>, b: seq<MatchFinding>)
    ensures OnlyDrift(a + b) <==> OnlyDrift(a) && OnlyDrift(b)
  {
    assert forall f :: f in a + b <==> f in a || f in b;
  }

  predicate SeverityFollowsCode(findings: seq<MatchFinding>) {
    forall f :: f in findings ==> (f.severity == Warn <==> f.code == PriceDrift)
  }

  lemma OneLineVerdict(line: InvoiceLine, b: Basis)
    ensures SeverityFollowsCode(OneLineFindings(line, b))
    ensures OnlyDrift(OneLineFindings(line, b)) <==> LineAgrees(line, b)
    ensures OneLineFindings(line, b) == []
       <==> LineAgrees(line, b) && line.unitPrice == b.po[line.lineNo].unitPrice
  {
    if line.lineNo in b.po {
      var poLine := b.po[line.lineNo];
      CodesMean(line.uom, poLine.uom);
      BandMeans(line.unitPrice - poLine.unitPrice, poLine.unitPrice);
      hide SameLetters, Upper, AllowedDrift, SameIfKnown;
      var qty := QtyFindings(line, b);
      var price := Listed(PriceFinding(line, poLine));
      var uom := if UpperDiffers(line.uom, poLine.uom) then [Problem(UomMm, Some(line.lineNo), None)] else [];
      assert OneLineFindings(line, b) == qty + price + uom;
      OnlyDriftConcat(qty + price, uom);
      OnlyDriftConcat(qty, price);
      if qty != [] { assert qty[0] in qty; }
      if price != [] { assert price[0] in price; }
      if uom != [] { assert uom[0] in uom; }
    } else {
      assert OneLineFindings(line, b)[0] in OneLineFindings(line, b);
    }
  }

  lemma {:induction false} FindingsVerdict(lines: seq<InvoiceLine>, b: Basis)
    ensures SeverityFollowsCode(Findings(lines, b))
    ensures OnlyDrift(Findings(lines, b)) <==> LinesAgree(lines, b)
    ensures Findings(lines, b) == [] <==> LinesAgree(lines, b) && PricesEqual(lines, b)
  {
    if lines != [] {
      var n := |lines| - 1;
      var init, last := lines[..n], lines[n];
      assert lines == init + [last];
      FindingsOfAppended(init, last, b);
      FindingsVerdict(init, b);
      OneLineVerdict(last, b);
      OnlyDriftConcat(Findings(init, b), OneLineFindings(last, b));
      assert forall i :: 0 <= i < n ==> init[i] == lines[i];
    }
  }

  lemma HeaderVerdict(invoice: InvoiceForMatch, po: PoForMatch)
    ensures SeverityFollowsCode(HeaderFindings(invoice, po))
    ensures OnlyDrift(HeaderFindings(invoice, po)) <==> HeaderAgrees(invoice, po)
    ensures HeaderFindings(invoice, po) == [] <==> HeaderAgrees(invoice, po)
  {
    VendorMeans(invoice, po);
    CodesMean(invoice.currency, po.currency);
    hide SameName, VendorDiffers, UpperDiffers, SameIfKnown;
    var h := HeaderFindings(invoice, po);
    if h != [] { assert h[0] in h; }
  }

  lemma OutcomeOfMeaning(findings: seq<MatchFinding>)
    requires SeverityFollowsCode(findings)
    ensures OutcomeOf(findings) != Mismatch <==> OnlyDrift(findings)
    ensures OutcomeOf(findings) == Match <==> findings == []
  {
    if findings != [] {
      assert findings[0].severity == Error || findings[0].severity == Warn;
    }
    if !OnlyDrift(findings) {
      var f :| f in findings && !(f.code == PriceDrift && f.severity == Warn);
      var k :| 0 <= k < |findings| && findings[k] == f;
      assert findings[k].severity == Error;
    }
  }

  /** The whole verdict, said once for all lines: not a mismatch exactly when every header field and
      every line agrees, and a clean match exactly when in addition no price moved. */
  lemma VerdictMeaning(invoice: InvoiceForMatch, po: Option<PoForMatch>, gr: Option<GrForMatch>)
    ensures var r := Matched(invoice, po, gr);
            && (r.outcome != Mismatch
                <==> po.Some? && invoice.poNumber.Some? && HeaderAgrees(invoice, po.value)
                     && LinesAgree(invoice.lines, BasisOf(po.value, gr)))
            && (r.outcome == Match
                <==> r.outcome != Mismatch && PricesEqual(invoice.lines, BasisOf(po.value, gr)))
            && (r.outcome == Match <==> r.findings == [])
            && (r.outcome != Mismatch ==> OnlyDrift(r.findings))
            && (r.outcome == Mismatch <==> HasSeverity(r.findings, Error))
  {
    if po.Some? && invoice.poNumber.Some? {
      var b := BasisOf(po.value, gr);
      var header, lines := HeaderFindings(invoice, po.value), Findings(invoice.lines, b);
      HeaderVerdict(invoice, po.value);
      FindingsVerdict(invoice.lines, b);
      OnlyDriftConcat(header, lines);
      OutcomeOfMeaning(header + lines);
    } else {
      assert Matched(invoice, po, gr).findings[0].severity == Error;
    }
  }

  // ------------------------------------------------------------------ the worst ratio

  predicate UnitRatios(ratios: seq<real>) {
    forall r :: r in ratios ==> 0.0 <= r <= 1.0
  }

  lemma RatioInUnit(delta: real, band: real)
    ensures 0.0 <= Ratio(delta, band) <= 1.0
  {}

  lemma OneLineRatiosInUnit(line: InvoiceLine, b: Basis)
    ensures UnitRatios(OneLineRatios(line, b))
  {
    if line.lineNo in b.po {
      RatioInUnit(Abs(line.unitPrice - b.po[line.lineNo].unitPrice), PriceBand(b.po[line.lineNo].unitPrice));
      if line.lineNo in b.received {
        RatioInUnit(line.qty - b.received[line.lineNo], 1.0);
      }
    }
  }

  lemma {:induction false} RatiosInUnit(lines: seq<InvoiceLine>, b: Basis)
    ensures UnitRatios(Ratios(lines, b))
  {
    if lines != [] {
      var init, last := lines[..|lines| - 1], lines[|lines| - 1];
      assert lines == init + [last];
      FindingsOfAppended(init, last, b);
      RatiosInUnit(init, b);
      OneLineRatiosInUnit(last, b);
    }
  }

  lemma {:induction false} WorstIsMaximum(ratios: seq<real>)
    requires UnitRatios(ratios)
    ensures 0.0 <= Worst(ratios) <= 1.0
    ensures forall r :: r in ratios ==> r <= Worst(ratios)
    ensures Worst(ratios) in ratios || (ratios == [] && Worst(ratios) == 0.0)
  {
    if |ratios| == 1 {
      assert ratios[0] in ratios;
    } else if |ratios| > 1 {
      var n := |ratios| - 1;
      assert ratios == ratios[..n] + [ratios[n]];
      assert ratios[n] in ratios && forall r :: r in ratios[..n] ==> r in ratios;
      WorstIsMaximum(ratios[..n]);
    }
  }

  lemma {:induction false} LineRatioIsListed(lines: seq<InvoiceLine>, b: Basis, i: nat)
    requires i < |lines| && lines[i].lineNo in b.po
    ensures PriceRatio(lines[i], b) in Ratios(lines, b)
  {
    var n := |lines| - 1;
    assert lines == lines[..n] + [lines[n]];
    FindingsOfAppended(lines[..n], lines[n], b);
    if i < n {
      assert lines[..n][i] == lines[i];
      LineRatioIsListed(lines[..n], b, i);
    } else {
      var own := OneLineRatios(lines[n], b);
      assert own[|own| - 1] == PriceRatio(lines[n], b);
    }
  }

  lemma WorstInUnit(lines: seq<InvoiceLine>, b: Basis)
    ensures 0.0 <= Worst(Ratios(lines, b)) <= 1.0
  {
    RatiosInUnit(lines, b);
    WorstIsMaximum(Ratios(lines, b));
  }

  lemma RatioBelowWorst(lines: seq<InvoiceLine>, b: Basis, i: nat)
    requires i < |lines| && lines[i].lineNo in b.po
    ensures PriceRatio(lines[i], b) <= Worst(Ratios(lines, b))
  {
    hide PriceRatio;
    LineRatioIsListed(lines, b, i);
    RatiosInUnit(lines, b);
    WorstIsMaximum(Ratios(lines, b));
    hide Ratios, Worst;
  }

  lemma LineDriftBelow(line: InvoiceLine, b: Basis, worst: real)
    requires LineAgrees(line, b) && PriceRatio(line, b) <= worst
    ensures var poPrice := b.po[line.lineNo].unitPrice;
            Within(line.unitPrice - poPrice, worst * AllowedDrift(poPrice))
  {
    var poPrice := b.po[line.lineNo].unitPrice;
    BandMeans(line.unitPrice - poPrice, poPrice);
    hide Ratio, PriceBand, AllowedDrift, SameIfKnown;
    DriftBelow(line.unitPrice - poPrice, AllowedDrift(poPrice), worst);
  }

  lemma DriftWithinWorst(lines: seq<InvoiceLine>, b: Basis, i: nat, worst: real)
    requires i < |lines| && LineAgrees(lines[i], b) && worst == Worst(Ratios(lines, b))
    ensures var poPrice := b.po[lines[i].lineNo].unitPrice;
            Within(lines[i].unitPrice - poPrice, worst * AllowedDrift(poPrice))
  {
    hide Ratios, Worst, PriceRatio, SameIfKnown;
    RatioBelowWorst(lines, b, i);
    LineDriftBelow(lines[i], b, worst);
  }

  lemma DriftBelow(delta: real, band: real, worst: real)
    requires Within(delta, band) && band > 0.0 && Ratio(Abs(delta), band) <= worst
    ensures Within(delta, worst * band)
  {
    BelowWorst(Abs(delta), band, worst);
  }

  lemma BelowWorst(d: real, band: real, worst: real)
    requires 0.0 <= d <= band && band > 0.0 && Ratio(d, band) <= worst
    ensures d <= worst * band
  {
    RatioOfAgreeing(d, band);
    ScaleUp(Ratio(d, band), worst, band);
  }

  /** Every agreeing line's price drift is bounded by the reported delta times its band. */
  lemma DeltaBoundsDrift(invoice: InvoiceForMatch, po: PoForMatch, gr: Option<GrForMatch>, i: nat)
    requires i < |invoice.lines| && LineAgrees(invoice.lines[i], BasisOf(po, gr))
    ensures var poPrice := BasisOf(po, gr).po[invoice.lines[i].lineNo].unitPrice;
            Within(invoice.lines[i].unitPrice - poPrice,
                   MatchedAgainst(invoice, po, gr).normalizedDelta * AllowedDrift(poPrice))
  {
    hide AllowedDrift, Ratios, Findings, OutcomeOf, HeaderFindings, SameIfKnown;
    WorstInUnit(invoice.lines, BasisOf(po, gr));
    DriftWithinWorst(invoice.lines, BasisOf(po, gr), i, MatchedAgainst(invoice, po, gr).normalizedDelta);
  }

  lemma RatioOfAgreeing(d: real, band: real)
    requires 0.0 <= d <= band && band > 0.0
    ensures Ratio(d, band) * band == d
  {
    var q := d / band;
    assert q * band == d;
    if q > 1.0 { ScaleUp(1.0, q, band); }
  }

  lemma ScaleUp(a: real, c: real, k: real)
    requires a <= c && k >= 0.0
    ensures a * k <= c * k
  {}

  lemma {:induction false} EqualPricesGiveZero(lines: seq<InvoiceLine>, b: Basis)
    requires LinesAgree(lines, b) && PricesEqual(lines, b)
    ensures forall r :: r in Ratios(lines, b) ==> r == 0.0
  {
    if lines != [] {
      var n := |lines| - 1;
      assert lines == lines[..n] + [lines[n]];
      FindingsOfAppended(lines[..n], lines[n], b);
      EqualPricesGiveZero(lines[..n], b);
      assert LineAgrees(lines[n], b);
      assert OneLineRatios(lines[n], b) == [0.0];
    }
  }

  lemma DriftGivesPositive(lines: seq<InvoiceLine>, b: Basis)
    requires LinesAgree(lines, b) && !PricesEqual(lines, b)
    ensures exists r :: r in Ratios(lines, b) && r > 0.0
  {
    var i :| 0 <= i < |lines| && !(lines[i].lineNo in b.po && lines[i].unitPrice == b.po[lines[i].lineNo].unitPrice);
    assert LineAgrees(lines[i], b);
    LineRatioIsListed(lines, b, i);
    var poPrice := b.po[lines[i].lineNo].unitPrice;
    BandMeans(lines[i].unitPrice - poPrice, poPrice);
    RatioOfAgreeing(Abs(lines[i].unitPrice - poPrice), PriceBand(poPrice));
    RatioInUnit(Abs(lines[i].unitPrice - poPrice), PriceBand(poPrice));
  }

  /** MATCH reports no drift; TOLERABLE reports only drift findings and a delta in (0, 1]. */
  lemma DeltaOfOutcome(invoice: InvoiceForMatch, po: Option<PoForMatch>, gr: Option<GrForMatch>)
    ensures var r := Matched(invoice, po, gr);
            && 0.0 <= r.normalizedDelta <= 1.0
            && (r.outcome == Match ==> r.normalizedDelta == 0.0)
            && (r.outcome == Tolerable ==> OnlyDrift(r.findings) && r.findings != [] && 0.0 < r.normalizedDelta <= 1.0)
  {
    VerdictMeaning(invoice, po, gr);
    if po.Some? && invoice.poNumber.Some? {
      var b := BasisOf(po.value, gr);
      RatiosInUnit(invoice.lines, b);
      WorstIsMaximum(Ratios(invoice.lines, b));
      if Matched(invoice, po, gr).outcome == Match {
        EqualPricesGiveZero(invoice.lines, b);
      } else if Matched(invoice, po, gr).outcome == Tolerable {
        DriftGivesPositive(invoice.lines, b);
      }
    }
  }

  // ------------------------------------------------------------------ a fold over the lines

  lemma FindingsOfConcat(a: seq<InvoiceLine>, c: seq<InvoiceLine>, b: Basis)
    ensures Findings(a + c, b) == Findings(a, b) + Findings(c, b)
    ensures Ratios(a + c, b) == Ratios(a, b) + Ratios(c, b)
  {
    assert FindingsPerLine(a + c, b) == FindingsPerLine(a, b) + FindingsPerLine(c, b);
    assert RatiosPerLine(a + c, b) == RatiosPerLine(a, b) + RatiosPerLine(c, b);
    FlatOfConcat(FindingsPerLine(a, b), FindingsPerLine(c, b));
    FlatOfConcat(RatiosPerLine(a, b), RatiosPerLine(c, b));
  }

  lemma PerLineWithout(lines: seq<InvoiceLine>, k: nat, b: Basis)
    requires k < |lines|
    ensures FindingsPerLine(Without(lines, k), b) == Without(FindingsPerLine(lines, b), k)
    ensures RatiosPerLine(Without(lines, k), b) == Without(RatiosPerLine(lines, b), k)
  {}

  lemma {:induction false} PerLineOfSameBag(p: seq<InvoiceLine>, q: seq<InvoiceLine>, b: Basis)
    requires multiset(p) == multiset(q)
    ensures multiset(FindingsPerLine(p, b)) == multiset(FindingsPerLine(q, b))
    ensures multiset(RatiosPerLine(p, b)) == multiset(RatiosPerLine(q, b))
    decreases |p|
  {
    if p == [] {
      assert |multiset(q)| == 0;
    } else {
      var n := |p| - 1;
      var k := MatchingElement(p, q);
      assert Without(p, n) == p[..n];
      PerLineOfSameBag(p[..n], Without(q, k), b);
      PerLineWithout(p, n, b);
      PerLineWithout(q, k, b);
      BagWithout(FindingsPerLine(p, b), n);
      BagWithout(FindingsPerLine(q, b), k);
      BagWithout(RatiosPerLine(p, b), n);
      BagWithout(RatiosPerLine(q, b), k);
    }
  }

  lemma BagsOfLines(p: seq<InvoiceLine>, q: seq<InvoiceLine>, b: Basis)
    requires multiset(p) == multiset(q)
    ensures multiset(Findings(p, b)) == multiset(Findings(q, b))
    ensures multiset(Ratios(p, b)) == multiset(Ratios(q, b))
  {
    PerLineOfSameBag(p, q, b);
    FlatOfSameBag(FindingsPerLine(p, b), FindingsPerLine(q, b));
    FlatOfSameBag(RatiosPerLine(p, b), RatiosPerLine(q, b));
  }

  lemma WorstOfSameBag(p: seq<real>, q: seq<real>)
    requires UnitRatios(p) && UnitRatios(q) && multiset(p) == multiset(q)
    ensures Worst(p) == Worst(q)
  {
    WorstIsMaximum(p);
    WorstIsMaximum(q);
    assert forall r :: r in p <==> r in multiset(p);
    assert forall r :: r in q <==> r in multiset(q);
    assert |p| == |multiset(p)| && |q| == |multiset(q)|;
  }

  lemma SeverityOfSameBag(p: seq<MatchFinding>, q: seq<MatchFinding>, severity: Severity)
    requires multiset(p) == multiset(q) && HasSeverity(p, severity)
    ensures HasSeverity(q, severity)
  {
    var k :| 0 <= k < |p| && p[k].severity == severity;
    assert p[k] in multiset(q);
    var j :| 0 <= j < |q| && q[j] == p[k];
  }

  /** Reordering the invoice's lines changes neither outcome, nor delta, nor the bag of findings. */
  lemma LineOrderIsIrrelevant(
    invoice: InvoiceForMatch, reordered: seq<InvoiceLine>, po: Option<PoForMatch>, gr: Option<GrForMatch>)
    requires multiset(reordered) == multiset(invoice.lines)
    ensures var r, s := Matched(invoice, po, gr), Matched(invoice.(lines := reordered), po, gr);
            r.outcome == s.outcome && r.normalizedDelta == s.normalizedDelta
            && multiset(r.findings) == multiset(s.findings)
  {
    if po.Some? && invoice.poNumber.Some? {
      var b := BasisOf(po.value, gr);
      BagsOfLines(invoice.lines, reordered, b);
      RatiosInUnit(invoice.lines, b);
      RatiosInUnit(reordered, b);
      WorstOfSameBag(Ratios(invoice.lines, b), Ratios(reordered, b));
      var permuted := invoice.(lines := reordered);
      assert HeaderFindings(permuted, po.value) == HeaderFindings(invoice, po.value);
      SameBagSameOutcome(
        HeaderFindings(invoice, po.value) + Findings(invoice.lines, b),
        HeaderFindings(invoice, po.value) + Findings(reordered, b));
    }
  }

  lemma SameBagSameOutcome(p: seq<MatchFinding>, q: seq<MatchFinding>)
    requires multiset(p) == multiset(q)
    ensures OutcomeOf(p) == OutcomeOf(q)
  {
    if HasSeverity(p, Error) { SeverityOfSameBag(p, q, Error); }
    if HasSeverity(q, Error) { SeverityOfSameBag(q, p, Error); }
    if HasSeverity(p, Warn) { SeverityOfSameBag(p, q, Warn); }
    if HasSeverity(q, Warn) { SeverityOfSameBag(q, p, Warn); }
  }

  function Worse(a: Outcome, b: Outcome): Outcome {
    if a == Mismatch || b == Mismatch then Mismatch
    else if a == Tolerable || b == Tolerable then Tolerable
    else Match
  }

  lemma SeverityOfUnion(h: seq<MatchFinding>, p: seq<MatchFinding>, q: seq<MatchFinding>, severity: Severity)
    ensures HasSeverity(h + p + q, severity) <==> HasSeverity(h + p, severity) || HasSeverity(h + q, severity)
  {
    var all := h + p + q;
    if k :| 0 <= k < |h + p| && (h + p)[k].severity == severity {
      assert all[k] == (h + p)[k];
    }
    if k :| 0 <= k < |h + q| && (h + q)[k].severity == severity {
      var j := if k < |h| then k else k + |p|;
      assert all[j] == (h + q)[k];
    }
    if k :| 0 <= k < |all| && all[k].severity == severity {
      if k < |h + p| {
        assert (h + p)[k] == all[k];
      } else {
        assert (h + q)[k - |p|] == all[k];
      }
    }
  }

  lemma WorstOfUnion(p: seq<real>, q: seq<real>)
    requires UnitRatios(p) && UnitRatios(q)
    ensures Worst(p + q) == Max(Worst(p), Worst(q))
  {
    assert forall r :: r in p + q <==> r in p || r in q;
    WorstIsMaximum(p);
    WorstIsMaximum(q);
    WorstIsMaximum(p + q);
  }

  /** Splitting the lines over two invoices with the same header: the whole is the worse of the parts. */
  lemma SplitInvoice(
    invoice: InvoiceForMatch, a: seq<InvoiceLine>, c: seq<InvoiceLine>, po: Option<PoForMatch>, gr: Option<GrForMatch>)
    requires invoice.lines == a + c
    ensures var r := Matched(invoice, po, gr);
            var r1, r2 := Matched(invoice.(lines := a), po, gr), Matched(invoice.(lines := c), po, gr);
            r.outcome == Worse(r1.outcome, r2.outcome)
            && r.normalizedDelta == Max(r1.normalizedDelta, r2.normalizedDelta)
  {
    if po.Some? && invoice.poNumber.Some? {
      var b := BasisOf(po.value, gr);
      var h := HeaderFindings(invoice, po.value);
      assert HeaderFindings(invoice.(lines := a), po.value) == h;
      assert HeaderFindings(invoice.(lines := c), po.value) == h;
      FindingsOfConcat(a, c, b);
      assert h + Findings(invoice.lines, b) == h + Findings(a, b) + Findings(c, b);
      SeverityOfUnion(h, Findings(a, b), Findings(c, b), Error);
      SeverityOfUnion(h, Findings(a, b), Findings(c, b), Warn);
      RatiosInUnit(a, b);
      RatiosInUnit(c, b);
      WorstOfUnion(Ratios(a, b), Ratios(c, b));
    }
  }
}
