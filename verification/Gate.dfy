/** The composite confidence gate: score, threshold, and what they imply. */
module Gate {
  import opened Common
  import opened Extraction

  const TAU := 0.85
  const W_FIELD := 0.4
  const W_MATCH := 0.4
  const W_POLICY := 0.2
  datatype Route = Auto | Escalate

  datatype GateInputs = GateInputs(
    fieldConfidences: seq<Confidence>,
    normalizedMatchDelta: Option<real>,
    policySeverities: seq<string>)

  datatype GateDecision = GateDecision(confidence: real, route: Route, tau: real)

  /** `key.rsplit(".", 1)[-1]`. */
  function AfterLastDot(key: string): string {
    if key == "" then ""
    else if key[|key| - 1] == '.' then ""
    else AfterLastDot(key[..|key| - 1]) + [key[|key| - 1]]
  }

  predicate IsCriticalHeader(key: string) {
    key == "vendor_name" || key == "invoice_number" || key == "issue_date" || key == "currency" ||
    key == "total_amount" || key == "tax_total" || key == "iban" || key == "po_number"
  }

  predicate IsCriticalLineField(field: string) {
    field == "qty" || field == "unit_price" || field == "line_total"
  }

  predicate IsCritical(key: string) {
    IsCriticalHeader(key) || ("line[" <= key && IsCriticalLineField(AfterLastDot(key)))
  }

  /** The clamped confidences of the critical fields, in mapping order. */
  function CriticalValues(confidences: seq<Confidence>): seq<real> {
    if confidences == [] then []
    else
      var head := confidences[0];
      (if IsCritical(head.key) then [Max(0.0, head.value)] else []) + CriticalValues(confidences[1..])
  }

  function MinOf(values: seq<real>): (m: real)
    requires values != []
    ensures m in values
    ensures forall v :: v in values ==> m <= v
  {
    assert values == [values[0]] + values[1..];
    if |values| == 1 then values[0] else Min(values[0], MinOf(values[1..]))
  }

  function MinCriticalConfidence(confidences: seq<Confidence>): real {
    var values := CriticalValues(confidences);
    if values == [] then 0.0 else MinOf(values)
  }

  function SeverityPenalty(severity: string): real {
    if severity == "CRITICAL" then 1.0
    else if severity == "HIGH" then 0.6
    else if severity == "MEDIUM" then 0.3
    else if severity == "LOW" then 0.1
    else 0.3
  }

  function TotalPenalty(severities: seq<string>): (p: real)
    ensures p >= 0.0
  {
    if severities == [] then 0.0 else SeverityPenalty(severities[0]) + TotalPenalty(severities[1..])
  }

  function PolicySeverityTerm(severities: seq<string>): real {
    Max(0.0, 1.0 - TotalPenalty(severities))
  }

  function Score(inputs: GateInputs): real {
    var matchTerm := if inputs.normalizedMatchDelta.Some? then 1.0 - inputs.normalizedMatchDelta.value else 0.0;
    var raw := W_FIELD * MinCriticalConfidence(inputs.fieldConfidences)
             + W_MATCH * matchTerm
             + W_POLICY * PolicySeverityTerm(inputs.policySeverities);
    Min(1.0, Max(0.0, raw))
  }

  function Decide(inputs: GateInputs): GateDecision {
    var score := Score(inputs);
    GateDecision(score, if score >= TAU then Auto else Escalate, TAU)
  }

  // ------------------------------------------------------------------ what the minimum means

  predicate EndsWith(key: string, suffix: string) {
    |suffix| <= |key| && key[|key| - |suffix|..] == suffix
  }

  /** The eight header fields the gate looks at. */
  predicate NamesHeader(key: string) {
    || key == "vendor_name" || key == "invoice_number" || key == "issue_date" || key == "currency"
    || key == "total_amount" || key == "tax_total" || key == "iban" || key == "po_number"
  }

  /** Quantity, price and total of any line. */
  predicate NamesLineFigure(key: string) {
    "line[" <= key && (EndsWith(key, ".qty") || EndsWith(key, ".unit_price") || EndsWith(key, ".line_total"))
  }

  predicate IsCriticalItem(c: Confidence) {
    NamesHeader(c.key) || NamesLineFigure(c.key)
  }

  lemma LastOf(s: string, t: string, c: char)
    requires s != ""
    ensures s == t + [c] <==> s[..|s| - 1] == t && s[|s| - 1] == c
  {
    if s == t + [c] { assert s[..|s| - 1] == t; }
  }

  lemma {:induction false} LastField(key: string, field: string)
    requires '.' !in field
    ensures AfterLastDot(key) == field <==> key == field || EndsWith(key, "." + field)
  {
    if key != "" && key[|key| - 1] != '.' {
      var n := |key| - 1;
      if field != "" {
        var m := |field| - 1;
        assert field == field[..m] + [field[m]];
        assert forall i :: 0 <= i < m ==> field[..m][i] in field;
        LastField(key[..n], field[..m]);
        assert AfterLastDot(key)[..|AfterLastDot(key)| - 1] == AfterLastDot(key[..n]);
        LastOf(key, field[..m], field[m]);
        SuffixGrows(key, "." + field[..m], field[m]);
        assert "." + field[..m] + [field[m]] == "." + field;
      }
    } else if key != "" && field != "" {
      assert field[|field| - 1] in field;
    }
  }

  lemma SuffixGrows(key: string, suffix: string, c: char)
    requires key != ""
    ensures EndsWith(key, suffix + [c]) <==> key[|key| - 1] == c && EndsWith(key[..|key| - 1], suffix)
  {
    var n := |key| - 1;
    if |suffix| + 1 <= |key| {
      var tail := key[|key| - |suffix| - 1..];
      assert tail[|tail| - 1] == key[n] && tail[..|tail| - 1] == key[..n][n - |suffix|..];
      LastOf(tail, suffix, c);
    }
  }

  lemma LineField(key: string, field: string, suffix: string)
    requires "line[" <= key && suffix == "." + field && '.' !in field && '[' !in field
    ensures AfterLastDot(key) == field <==> EndsWith(key, suffix)
  {
    LastField(key, field);
    assert key[4] == '[';
  }

  lemma QtyField(key: string)
    requires "line[" <= key
    ensures AfterLastDot(key) == "qty" <==> EndsWith(key, ".qty")
  {
    hide AfterLastDot, EndsWith;
    LineField(key, "qty", ".qty");
  }

  lemma UnitPriceField(key: string)
    requires "line[" <= key
    ensures AfterLastDot(key) == "unit_price" <==> EndsWith(key, ".unit_price")
  {
    hide AfterLastDot, EndsWith;
    LineField(key, "unit_price", ".unit_price");
  }

  lemma LineTotalField(key: string)
    requires "line[" <= key
    ensures AfterLastDot(key) == "line_total" <==> EndsWith(key, ".line_total")
  {
    hide AfterLastDot, EndsWith;
    LineField(key, "line_total", ".line_total");
  }

  lemma LineFigures(key: string)
    requires "line[" <= key
    ensures IsCriticalLineField(AfterLastDot(key)) <==> NamesLineFigure(key)
  {
    hide AfterLastDot, EndsWith;
    QtyField(key);
    UnitPriceField(key);
    LineTotalField(key);
  }

  lemma CriticalItemsAreCritical(c: Confidence)
    ensures IsCritical(c.key) <==> IsCriticalItem(c)
  {
    HeaderFields(c.key);
    if "line[" <= c.key { LineFigures(c.key); }
    hide IsCriticalLineField, AfterLastDot, EndsWith, IsCriticalHeader, NamesHeader;
  }

  lemma HeaderFields(key: string)
    ensures IsCriticalHeader(key) <==> NamesHeader(key)
  {}

  lemma {:induction false} CriticalValuesAreTheCriticalItems(confidences: seq<Confidence>, v: real)
    ensures v in CriticalValues(confidences)
       <==> exists i :: 0 <= i < |confidences| && IsCriticalItem(confidences[i]) && v == Max(0.0, confidences[i].value)
  {
    hide IsCritical, IsCriticalItem;
    if confidences != [] {
      var rest := confidences[1..];
      CriticalItemsAreCritical(confidences[0]);
      CriticalValuesAreTheCriticalItems(rest, v);
      if v in CriticalValues(rest) {
        var i :| 0 <= i < |rest| && IsCriticalItem(rest[i]) && v == Max(0.0, rest[i].value);
        assert confidences[i + 1] == rest[i];
      }
      if i :| 0 <= i < |confidences| && IsCriticalItem(confidences[i]) && v == Max(0.0, confidences[i].value) {
        if i > 0 { assert rest[i - 1] == confidences[i]; }
      }
    }
  }

  /** The gate's field term is a lower bound of every critical field, attained by one of them,
      and zero when no critical field was extracted. */
  lemma MinCriticalIsTheMinimum(confidences: seq<Confidence>)
    ensures forall i :: 0 <= i < |confidences| && IsCriticalItem(confidences[i]) ==>
              MinCriticalConfidence(confidences) <= Max(0.0, confidences[i].value)
    ensures (exists i :: 0 <= i < |confidences| && IsCriticalItem(confidences[i])
                         && MinCriticalConfidence(confidences) == Max(0.0, confidences[i].value))
         || (MinCriticalConfidence(confidences) == 0.0
             && forall i :: 0 <= i < |confidences| ==> !IsCriticalItem(confidences[i]))
    ensures MinCriticalConfidence(confidences) >= 0.0
  {
    var values := CriticalValues(confidences);
    forall i | 0 <= i < |confidences| && IsCriticalItem(confidences[i])
      ensures Max(0.0, confidences[i].value) in values
    {
      CriticalValuesAreTheCriticalItems(confidences, Max(0.0, confidences[i].value));
    }
    if values != [] {
      CriticalValuesAreTheCriticalItems(confidences, MinOf(values));
    }
  }

  /** Extraction confidences read as probabilities: none exceeds one. */
  predicate UnitConfidences(confidences: seq<Confidence>) {
    forall i :: 0 <= i < |confidences| ==> confidences[i].value <= 1.0
  }

  lemma MinCriticalAtMostOne(confidences: seq<Confidence>)
    requires UnitConfidences(confidences)
    ensures 0.0 <= MinCriticalConfidence(confidences) <= 1.0
  {
    MinCriticalIsTheMinimum(confidences);
  }

  // ------------------------------------------------------------------ range and monotonicity

  lemma ScoreInUnitInterval(inputs: GateInputs)
    ensures 0.0 <= Score(inputs) <= 1.0
  {}

  lemma ScoreFallsWithDelta(inputs: GateInputs, delta: real)
    requires inputs.normalizedMatchDelta.Some? && inputs.normalizedMatchDelta.value <= delta
    ensures Score(inputs.(normalizedMatchDelta := Some(delta))) <= Score(inputs)
  {}

  lemma {:induction false} PenaltyOfAppended(a: seq<string>, b: seq<string>)
    ensures TotalPenalty(a + b) == TotalPenalty(a) + TotalPenalty(b)
  {
    if a == [] {
      assert a + b == b;
    } else {
      assert (a + b)[1..] == a[1..] + b;
      PenaltyOfAppended(a[1..], b);
    }
  }

  /** Inserting any policy finding anywhere never raises the score. */
  lemma ScoreFallsWithSeverity(inputs: GateInputs, before: seq<string>, severity: string, after: seq<string>)
    requires inputs.policySeverities == before + after
    ensures Score(inputs.(policySeverities := before + [severity] + after)) <= Score(inputs)
  {
    PenaltyOfAppended(before, after);
    PenaltyOfAppended(before + [severity], after);
    PenaltyOfAppended(before, [severity]);
  }

  /** `later` dominates `earlier` when both list the same fields and no value fell. */
  predicate Dominates(later: seq<Confidence>, earlier: seq<Confidence>) {
    |later| == |earlier| &&
    forall i :: 0 <= i < |later| ==> later[i].key == earlier[i].key && later[i].value >= earlier[i].value
  }

  lemma ScoreRisesWithConfidence(inputs: GateInputs, raised: seq<Confidence>)
    requires Dominates(raised, inputs.fieldConfidences)
    ensures Score(inputs) <= Score(inputs.(fieldConfidences := raised))
  {
    var old_, new_ := inputs.fieldConfidences, raised;
    MinCriticalIsTheMinimum(old_);
    MinCriticalIsTheMinimum(new_);
    if i :| 0 <= i < |new_| && IsCriticalItem(new_[i]) && MinCriticalConfidence(new_) == Max(0.0, new_[i].value) {
      assert IsCriticalItem(old_[i]);
      assert MinCriticalConfidence(old_) <= Max(0.0, old_[i].value);
    } else {
      assert forall i :: 0 <= i < |old_| ==> !IsCriticalItem(new_[i]) && !IsCriticalItem(old_[i]);
    }
  }

  /** One more field never raises the score, provided some critical field was there before. */
  lemma ScoreFallsWithExtraField(inputs: GateInputs, before: seq<Confidence>, extra: Confidence, after: seq<Confidence>)
    requires inputs.fieldConfidences == before + after
    requires exists i :: 0 <= i < |inputs.fieldConfidences| && IsCriticalItem(inputs.fieldConfidences[i])
    ensures Score(inputs.(fieldConfidences := before + [extra] + after)) <= Score(inputs)
  {
    var old_, new_ := before + after, before + [extra] + after;
    MinCriticalIsTheMinimum(old_);
    MinCriticalIsTheMinimum(new_);
    var i :| 0 <= i < |old_| && IsCriticalItem(old_[i]) && MinCriticalConfidence(old_) == Max(0.0, old_[i].value);
    var j := if i < |before| then i else i + 1;
    assert new_[j] == old_[i];
  }

  // ------------------------------------------------------------------ the threshold

  /** What the findings cost, by the number of each severity; a severity not known counts as MEDIUM. */
  function PenaltyByCount(severities: multiset<string>): real {
    1.0 * severities["CRITICAL"] as real + 0.6 * severities["HIGH"] as real + 0.1 * severities["LOW"] as real
    + 0.3 * (|severities| - severities["CRITICAL"] - severities["HIGH"] - severities["LOW"]) as real
  }

  function LeftOver(penalty: real): real {
    if penalty >= 1.0 then 0.0 else 1.0 - penalty
  }

  lemma {:induction false} PenaltyCounts(severities: seq<string>)
    ensures TotalPenalty(severities) == PenaltyByCount(multiset(severities))
  {
    if severities != [] {
      PenaltyCounts(severities[1..]);
      assert severities == [severities[0]] + severities[1..];
      assert multiset(severities) == multiset{severities[0]} + multiset(severities[1..]);
    }
  }

  /** The gate in one line: AUTO exactly when two fifths of the least critical confidence, two fifths of what
      the match leaves, and a fifth of what the policy findings leave come to 0.85. */
  lemma AutoIff(inputs: GateInputs)
    ensures Decide(inputs).route == Auto
       <==> 0.4 * MinCriticalConfidence(inputs.fieldConfidences)
            + 0.4 * (if inputs.normalizedMatchDelta.Some? then 1.0 - inputs.normalizedMatchDelta.value else 0.0)
            + 0.2 * LeftOver(PenaltyByCount(multiset(inputs.policySeverities))) >= 0.85
  {
    PenaltyCounts(inputs.policySeverities);
  }

  /** A single critical field read with less than 0.625 stops the automatic path, whatever else is in order. */
  lemma LowCriticalFieldEscalates(inputs: GateInputs, i: nat)
    requires i < |inputs.fieldConfidences| && IsCriticalItem(inputs.fieldConfidences[i])
    requires inputs.fieldConfidences[i].value < 0.625
    requires inputs.normalizedMatchDelta.Some? ==> inputs.normalizedMatchDelta.value >= 0.0
    ensures Decide(inputs).route == Escalate
  {
    hide IsCriticalItem, MinCriticalConfidence;
    MinCriticalIsTheMinimum(inputs.fieldConfidences);
  }

  /** With no policy finding, AUTO is exactly one linear condition on field term and drift. */
  lemma AutoIffLinear(inputs: GateInputs)
    requires inputs.policySeverities == [] && inputs.normalizedMatchDelta.Some?
    ensures Decide(inputs).route == Auto
       <==> MinCriticalConfidence(inputs.fieldConfidences) + (1.0 - inputs.normalizedMatchDelta.value) >= 1.625
  {}

  /** Without match evidence a unit-confidence extraction is never approved automatically. */
  lemma NoMatchEvidenceNeverAuto(inputs: GateInputs)
    requires UnitConfidences(inputs.fieldConfidences) && inputs.normalizedMatchDelta.None?
    ensures Decide(inputs).route == Escalate
  {
    MinCriticalAtMostOne(inputs.fieldConfidences);
  }

  /** The clamp is one-sided: a confidence above one lets a maximal drift through. */
  lemma OverconfidentFieldDefeatsDrift()
    ensures var inputs := GateInputs([Confidence("iban", 2.0)], Some(1.0), []);
            Decide(inputs).route == Auto
  {
    var inputs := GateInputs([Confidence("iban", 2.0)], Some(1.0), []);
    CriticalItemsAreCritical(Confidence("iban", 2.0));
    assert CriticalValues(inputs.fieldConfidences) == [2.0];
  }
}
