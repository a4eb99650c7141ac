/** What reaching auto-approval implies about the invoice, and about the money. */
module AutoApproval {
  import opened Common
  import opened Extraction
  import opened Graph
  import Validation
  import Matching
  import MatchingLaws
  import Policy
  import Gate
  import Text

  /** The largest share of a line's price band that the gate can still have accepted. */
  function DriftAllowance(confidences: seq<Confidence>): real {
    Min(1.0, Gate.MinCriticalConfidence(confidences) - 0.625)
  }

  /** What the money on one line can come to: everything received, at the order's price plus `share`
      of its tolerance band. */
  function LineCeiling(line: Matching.InvoiceLine, b: Matching.Basis, share: real): real
    requires line.lineNo in b.po && line.lineNo in b.received
  {
    var poPrice := b.po[line.lineNo].unitPrice;
    b.received[line.lineNo] * (poPrice + share * MatchingLaws.AllowedDrift(poPrice))
  }

  predicate OnDocuments(lines: seq<Matching.InvoiceLine>, b: Matching.Basis) {
    forall k :: 0 <= k < |lines| ==> lines[k].lineNo in b.po && lines[k].lineNo in b.received
  }

  function Ceiling(lines: seq<Matching.InvoiceLine>, b: Matching.Basis, share: real): real
    requires OnDocuments(lines, b)
  {
    if lines == [] then 0.0
    else Ceiling(lines[..|lines| - 1], b, share) + LineCeiling(lines[|lines| - 1], b, share)
  }

  /** Quantity, unit price and line total are stated and not negative. */
  predicate Charged(line: ExtractionLine) {
    && line.qty.Some? && line.unitPrice.Some? && line.lineTotal.Some?
    && line.qty.value >= 0.0 && line.unitPrice.value >= 0.0 && line.lineTotal.value >= 0.0
  }

  predicate AllCharged(lines: seq<ExtractionLine>) {
    forall k :: 0 <= k < |lines| ==> Charged(lines[k])
  }

  /** What the path to auto-approval has established. */
  lemma AutoApprovedMeans(v: GraphState)
    requires Checkpointed(v) && AutoApproveNode in v.trace
    ensures v.extraction.Some? && v.matched.Some? && v.matched.value.po.Some? && v.policy.Some?
    ensures var x, m := v.extraction.value, v.matched.value;
            && Validation.Reconciled(x)
            && MatchingLaws.HeaderAgrees(Matching.InvoiceOf(x), m.po.value)
            && MatchingLaws.LinesAgree(Matching.InvoiceLinesOf(x.lines), MatchingLaws.BasisOf(m.po.value, m.gr))
            && x.poNumber.Some? && x.poNumber.value != ""
            && (m.po.value.vendorName.Some? ==> Text.SameName(x.vendorName.value, m.po.value.vendorName.value))
            && (m.po.value.currency.Some? ==> Text.SameLetters(x.currency.value, m.po.value.currency.value))
            && Policy.WithinPolicy(v.policy.value.context)
            && v.policy.value.context.invoice == Policy.InvoiceFacts(x.currency, x.totalAmount, x.iban, x.issueDate)
            && m.result == Matching.MatchedAgainst(Matching.InvoiceOf(x), m.po.value, m.gr)
            && m.result.normalizedDelta <= DriftAllowance(x.confidences)
    ensures TriageNode !in v.trace
  {
    hide Validation.Report, Policy.Evaluate, Gate.MinCriticalConfidence, Matching.HeaderFindings, Matching.Findings,
         Matching.PoLines, Matching.Received, Matching.Worst, Matching.Ratios, Validation.Reconciled,
         Policy.WithinPolicy, MatchingLaws.LinesAgree, MatchingLaws.HeaderAgrees, MatchingLaws.PricesEqual, DraftOf,
         Text.SameName, Text.SameLetters;
    var x, m := v.extraction.value, v.matched.value;
    Validation.ValidIffReconciled(x);
    ReconciledStates(x);
    VendorAndCurrencyAgree(x, m);
    MatchingLaws.VerdictMeaning(Matching.InvoiceOf(x), m.po, m.gr);
    MatchingLaws.DeltaOfOutcome(Matching.InvoiceOf(x), m.po, m.gr);
    Policy.CleanIffWithinPolicy(v.policy.value.context);
    assert GateInputsOf(x, v).policySeverities == [];
    Gate.AutoIffLinear(GateInputsOf(x, v));
  }

  lemma ReconciledStates(x: InvoiceExtraction)
    requires Validation.Reconciled(x)
    ensures x.vendorName.Some? && x.currency.Some?
  {}

  lemma VendorAndCurrencyAgree(x: InvoiceExtraction, m: MatchRecord)
    requires m.po.Some? && x.vendorName.Some? && x.currency.Some?
    ensures MatchingLaws.HeaderAgrees(Matching.InvoiceOf(x), m.po.value) ==>
              && (m.po.value.vendorName.Some? ==> Text.SameName(x.vendorName.value, m.po.value.vendorName.value))
              && (m.po.value.currency.Some? ==> Text.SameLetters(x.currency.value, m.po.value.currency.value))
  {
    hide Text.SameName, Text.SameLetters;
  }

  // ------------------------------------------------------------------ the money bound

  lemma ProductGrows(a: real, b: real, c: real, d: real)
    requires 0.0 <= a <= c && 0.0 <= b <= d
    ensures a * b <= c * d
  {
    MatchingLaws.ScaleUp(a, c, b);
    MatchingLaws.ScaleUp(b, d, c);
  }

  lemma DriftScales(delta: real, share: real, band: real)
    requires delta <= share && band >= 0.0
    ensures delta * band <= share * band
  {}

  predicate BoundedLine(line: ExtractionLine, b: Matching.Basis, delta: real) {
    && MatchingLaws.LineAgrees(Matching.InvoiceLineOf(line), b)
    && Charged(line) && line.lineTotal.value == line.qty.value * line.unitPrice.value
    && line.unitPrice.value - b.po[line.lineNo].unitPrice
       <= delta * MatchingLaws.AllowedDrift(b.po[line.lineNo].unitPrice)
  }

  /** The lines agree with the documents, add up, and drift by at most `delta` of their bands. */
  predicate Bounded(lines: seq<ExtractionLine>, b: Matching.Basis, delta: real) {
    forall k :: 0 <= k < |lines| ==> BoundedLine(lines[k], b, delta)
  }

  /** One charged line of an agreeing invoice costs at most its ceiling. */
  lemma LineWithinCeiling(line: ExtractionLine, b: Matching.Basis, delta: real, share: real)
    requires BoundedLine(line, b, delta) && delta <= share
    ensures line.lineNo in b.po && line.lineNo in b.received
    ensures OrZero(line.lineTotal) <= LineCeiling(Matching.InvoiceLineOf(line), b, share)
  {
    hide MatchingLaws.SameIfKnown;
    var poPrice, received := b.po[line.lineNo].unitPrice, b.received[line.lineNo];
    var band := MatchingLaws.AllowedDrift(poPrice);
    DriftScales(delta, share, band);
    hide MatchingLaws.AllowedDrift;
    ProductGrows(line.qty.value, line.unitPrice.value, received, poPrice + share * band);
  }

  lemma BoundedOnDocuments(lines: seq<ExtractionLine>, b: Matching.Basis, delta: real)
    requires Bounded(lines, b, delta)
    ensures OnDocuments(Matching.InvoiceLinesOf(lines), b)
    ensures forall k :: 0 <= k < |lines| ==> b.received[lines[k].lineNo] >= 0.0
  {
    hide MatchingLaws.AllowedDrift, MatchingLaws.SameIfKnown;
    assert forall k :: 0 <= k < |lines| ==> BoundedLine(lines[k], b, delta);
  }

  lemma {:induction false} SumWithinCeiling(lines: seq<ExtractionLine>, b: Matching.Basis, delta: real, share: real)
    requires Bounded(lines, b, delta) && delta <= share && OnDocuments(Matching.InvoiceLinesOf(lines), b)
    ensures Validation.StatedSum(lines) <= Ceiling(Matching.InvoiceLinesOf(lines), b, share)
  {
    hide LineCeiling, BoundedLine;
    if lines != [] {
      var n := |lines| - 1;
      assert Matching.InvoiceLinesOf(lines)[..n] == Matching.InvoiceLinesOf(lines[..n]);
      assert BoundedLine(lines[n], b, delta);
      SumWithinCeiling(lines[..n], b, delta, share);
      LineWithinCeiling(lines[n], b, delta, share);
    }
  }

  lemma ApprovedLinesBounded(v: GraphState)
    requires Checkpointed(v) && AutoApproveNode in v.trace && AllCharged(v.extraction.value.lines)
    ensures v.matched.Some? && v.matched.value.po.Some?
    ensures Bounded(v.extraction.value.lines, MatchingLaws.BasisOf(v.matched.value.po.value, v.matched.value.gr),
                    v.matched.value.result.normalizedDelta)
  {
    hide Checkpointed, Matching.MatchedAgainst, MatchingLaws.AllowedDrift, DriftAllowance, MatchingLaws.BasisOf,
         Policy.WithinPolicy, MatchingLaws.HeaderAgrees, MatchingLaws.SameIfKnown;
    AutoApprovedMeans(v);
    var x, m := v.extraction.value, v.matched.value;
    var invoice := Matching.InvoiceOf(x);
    var b := MatchingLaws.BasisOf(m.po.value, m.gr);
    forall k | 0 <= k < |x.lines| ensures BoundedLine(x.lines[k], b, m.result.normalizedDelta) {
      assert Charged(x.lines[k]) && Validation.LineComplete(x.lines[k]);
      assert invoice.lines[k] == Matching.InvoiceLineOf(x.lines[k]);
      MatchingLaws.DeltaBoundsDrift(invoice, m.po.value, m.gr, k);
    }
  }

  /** The bound, for any confidences: the total of an auto-approved invoice whose lines are charged is
      at most what was received at the order's prices plus the accepted share of the bands. */
  lemma MoneyBound(v: GraphState)
    requires Checkpointed(v) && AutoApproveNode in v.trace
    requires v.extraction.Some? && v.extraction.value.lines != [] && AllCharged(v.extraction.value.lines)
    ensures v.matched.Some? && v.matched.value.po.Some? && v.extraction.value.totalAmount.Some?
    ensures var x, m := v.extraction.value, v.matched.value;
            var lines, b := Matching.InvoiceLinesOf(x.lines), MatchingLaws.BasisOf(m.po.value, m.gr);
            && OnDocuments(lines, b)
            && x.totalAmount.value <= Ceiling(lines, b, DriftAllowance(x.confidences))
  {
    hide Checkpointed, Matching.MatchedAgainst, DriftAllowance, MatchingLaws.BasisOf, Policy.WithinPolicy,
         MatchingLaws.HeaderAgrees, Bounded, Ceiling;
    AutoApprovedMeans(v);
    ApprovedLinesBounded(v);
    var x, m := v.extraction.value, v.matched.value;
    assert Charged(x.lines[0]);
    assert x.lines[0].lineTotal.Some?;
    Validation.SumsMean(x.lines);
    BoundedOnDocuments(x.lines, MatchingLaws.BasisOf(m.po.value, m.gr), m.result.normalizedDelta);
    SumWithinCeiling(
      x.lines, MatchingLaws.BasisOf(m.po.value, m.gr), m.result.normalizedDelta, DriftAllowance(x.confidences));
  }

  /** Probabilities leave at most three eighths of a band. */
  lemma UnitConfidencesAllowThreeEighths(confidences: seq<Confidence>)
    requires Gate.UnitConfidences(confidences)
    ensures DriftAllowance(confidences) <= 0.375
  {
    Gate.MinCriticalAtMostOne(confidences);
  }

  lemma LineCeilingGrows(line: Matching.InvoiceLine, b: Matching.Basis, share: real, wider: real)
    requires line.lineNo in b.po && line.lineNo in b.received && b.received[line.lineNo] >= 0.0 && share <= wider
    ensures LineCeiling(line, b, share) <= LineCeiling(line, b, wider)
  {
    var poPrice := b.po[line.lineNo].unitPrice;
    var band := MatchingLaws.AllowedDrift(poPrice);
    DriftScales(share, wider, band);
    hide MatchingLaws.AllowedDrift;
    MatchingLaws.ScaleUp(poPrice + share * band, poPrice + wider * band, b.received[line.lineNo]);
    Commute(b.received[line.lineNo], poPrice + share * band);
    Commute(b.received[line.lineNo], poPrice + wider * band);
  }

  lemma Commute(x: real, y: real)
    ensures x * y == y * x
  {}

  lemma {:induction false} CeilingGrows(lines: seq<Matching.InvoiceLine>, b: Matching.Basis, share: real, wider: real)
    requires OnDocuments(lines, b) && share <= wider
    requires forall k :: 0 <= k < |lines| ==> b.received[lines[k].lineNo] >= 0.0
    ensures Ceiling(lines, b, share) <= Ceiling(lines, b, wider)
  {
    hide LineCeiling;
    if lines != [] {
      CeilingGrows(lines[..|lines| - 1], b, share, wider);
      LineCeilingGrows(lines[|lines| - 1], b, share, wider);
    }
  }

  /** The documented bound: with confidences that are probabilities the share is three eighths. */
  lemma MoneyBoundThreeEighths(v: GraphState)
    requires Checkpointed(v) && AutoApproveNode in v.trace
    requires v.extraction.Some? && v.extraction.value.lines != [] && AllCharged(v.extraction.value.lines)
    requires Gate.UnitConfidences(v.extraction.value.confidences)
    ensures v.matched.Some? && v.matched.value.po.Some? && v.extraction.value.totalAmount.Some?
    ensures var x, m := v.extraction.value, v.matched.value;
            var lines, b := Matching.InvoiceLinesOf(x.lines), MatchingLaws.BasisOf(m.po.value, m.gr);
            OnDocuments(lines, b) && x.totalAmount.value <= Ceiling(lines, b, 0.375)
  {
    hide Checkpointed, MatchingLaws.BasisOf, Ceiling, DriftAllowance, Bounded;
    MoneyBound(v);
    ApprovedLinesBounded(v);
    var x, m := v.extraction.value, v.matched.value;
    var lines, b := Matching.InvoiceLinesOf(x.lines), MatchingLaws.BasisOf(m.po.value, m.gr);
    UnitConfidencesAllowThreeEighths(x.confidences);
    BoundedOnDocuments(x.lines, b, m.result.normalizedDelta);
    assert forall k :: 0 <= k < |lines| ==> lines[k].lineNo == x.lines[k].lineNo;
    CeilingGrows(lines, b, DriftAllowance(x.confidences), 0.375);
  }
}
