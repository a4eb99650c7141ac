/** Exception triage: from the run's findings to the one exception record it opens. */
module Triage {
  import opened Common
  import opened Taxonomy
  import Validation
  import Matching
  import Policy
  import Gate

  datatype TriageFinding =
    | FromValidation(check: Validation.CheckResult)
    | FromMatching(finding: Matching.MatchFinding)
    | FromPolicy(violation: Policy.PolicyFinding)
    | FromGate(decision: Gate.GateDecision)

  datatype Entry = Entry(code: ExceptionCode, payload: TriageFinding)

  datatype ExceptionDraft = ExceptionDraft(
    code: ExceptionCode,
    severity: ExceptionSeverity,
    findings: seq<TriageFinding>)

  datatype TriageError = RoutingBug | SeverityMismatch

  function ValidationEntries(checks: seq<Validation.CheckResult>): seq<Entry> {
    if checks == [] then []
    else
      var n := |checks| - 1;
      var before := ValidationEntries(checks[..n]);
      if checks[n].severity == Validation.Error
      then before + [Entry(CodeForValidation(checks[n]), FromValidation(checks[n]))]
      else before
  }

  function MatchingEntries(findings: seq<Matching.MatchFinding>): seq<Entry> {
    if findings == [] then []
    else
      var n := |findings| - 1;
      var before := MatchingEntries(findings[..n]);
      if findings[n].severity == Matching.Error
      then before + [Entry(CodeForMatching(findings[n]), FromMatching(findings[n]))]
      else before
  }

  function PolicyEntries(findings: seq<Policy.PolicyFinding>): seq<Entry> {
    seq(|findings|, i requires 0 <= i < |findings| => Entry(findings[i].code, FromPolicy(findings[i])))
  }

  function Entries(
    checks: seq<Validation.CheckResult>, matched: seq<Matching.MatchFinding>, violations: seq<Policy.PolicyFinding>)
    : seq<Entry>
  {
    ValidationEntries(checks) + MatchingEntries(matched) + PolicyEntries(violations)
  }

  method CollectEntries(
    checks: seq<Validation.CheckResult>, matched: seq<Matching.MatchFinding>, violations: seq<Policy.PolicyFinding>)
    returns (entries: seq<Entry>)
    ensures entries == Entries(checks, matched, violations)
  {
    entries := [];
    for i := 0 to |checks|
      invariant entries == ValidationEntries(checks[..i])
    {
      assert checks[..i + 1][..i] == checks[..i];
      if checks[i].severity == Validation.Error {
        entries := entries + [Entry(CodeForValidation(checks[i]), FromValidation(checks[i]))];
      }
    }
    assert checks[..|checks|] == checks;
    for i := 0 to |matched|
      invariant entries == ValidationEntries(checks) + MatchingEntries(matched[..i])
    {
      assert matched[..i + 1][..i] == matched[..i];
      if matched[i].severity == Matching.Error {
        entries := entries + [Entry(CodeForMatching(matched[i]), FromMatching(matched[i]))];
      }
    }
    assert matched[..|matched|] == matched;
    for i := 0 to |violations|
      invariant entries == ValidationEntries(checks) + MatchingEntries(matched) + PolicyEntries(violations)[..i]
    {
      entries := entries + [Entry(violations[i].code, FromPolicy(violations[i]))];
    }
  }

  function Codes(entries: seq<Entry>): seq<ExceptionCode> {
    seq(|entries|, i requires 0 <= i < |entries| => entries[i].code)
  }

  function Payloads(entries: seq<Entry>): seq<TriageFinding> {
    seq(|entries|, i requires 0 <= i < |entries| => entries[i].payload)
  }

  /** The record constructor refuses a severity that is not the taxonomy's. */
  function MakeDraft(code: ExceptionCode, severity: ExceptionSeverity, findings: seq<TriageFinding>)
    : Result<ExceptionDraft, TriageError>
  {
    if severity != SeverityOf(code) then Err(SeverityMismatch)
    else Ok(ExceptionDraft(code, severity, findings))
  }

  function Draft(
    checks: seq<Validation.CheckResult>, matched: seq<Matching.MatchFinding>,
    violations: seq<Policy.PolicyFinding>, gate: Option<Gate.GateDecision>)
    : Result<ExceptionDraft, TriageError>
  {
    var entries := Entries(checks, matched, violations);
    if entries == [] then
      if gate.None? || gate.value.route != Gate.Escalate then Err(RoutingBug)
      else MakeDraft(ApprovalRequired, SeverityOf(ApprovalRequired), [FromGate(gate.value)])
    else
      var primary := MostPrecedent(Codes(entries));
      MakeDraft(primary, SeverityOf(primary), Payloads(entries))
  }

  method BuildDraft(
    checks: seq<Validation.CheckResult>, matched: seq<Matching.MatchFinding>,
    violations: seq<Policy.PolicyFinding>, gate: Option<Gate.GateDecision>)
    returns (r: Result<ExceptionDraft, TriageError>)
    ensures r == Draft(checks, matched, violations, gate)
  {
    var entries := CollectEntries(checks, matched, violations);
    if entries == [] {
      if gate.None? || gate.value.route != Gate.Escalate {
        return Err(RoutingBug);
      }
      return MakeDraft(ApprovalRequired, SeverityOf(ApprovalRequired), [FromGate(gate.value)]);
    }
    assert Codes(entries)[0] == entries[0].code;
    var primary := PrimaryCode(Codes(entries));
    r := MakeDraft(primary.value, SeverityOf(primary.value), Payloads(entries));
  }

  // ------------------------------------------------------------------ when a draft exists

  lemma {:induction false} ValidationEntriesExist(checks: seq<Validation.CheckResult>)
    ensures ValidationEntries(checks) != [] <==> Validation.HasErrors(checks)
  {
    if checks != [] {
      var n := |checks| - 1;
      ValidationEntriesExist(checks[..n]);
      if k :| 0 <= k < |checks| && checks[k].severity == Validation.Error {
        if k < n { assert checks[..n][k].severity == Validation.Error; }
      }
      if k :| 0 <= k < n && checks[..n][k].severity == Validation.Error {
        assert checks[k].severity == Validation.Error;
      }
    }
  }

  lemma {:induction false} MatchingEntriesExist(findings: seq<Matching.MatchFinding>)
    ensures MatchingEntries(findings) != [] <==> Matching.HasSeverity(findings, Matching.Error)
  {
    if findings != [] {
      var n := |findings| - 1;
      MatchingEntriesExist(findings[..n]);
      if k :| 0 <= k < |findings| && findings[k].severity == Matching.Error {
        if k < n { assert findings[..n][k].severity == Matching.Error; }
      }
      if k :| 0 <= k < n && findings[..n][k].severity == Matching.Error {
        assert findings[k].severity == Matching.Error;
      }
    }
  }

  /** A draft is refused exactly when there is nothing to report: no hard validation finding, no hard
      matching finding, no policy finding, and no abstention by the gate. */
  lemma DraftExistsIff(
    checks: seq<Validation.CheckResult>, matched: seq<Matching.MatchFinding>,
    violations: seq<Policy.PolicyFinding>, gate: Option<Gate.GateDecision>)
    ensures Draft(checks, matched, violations, gate).Ok?
       <==> Validation.HasErrors(checks) || Matching.HasSeverity(matched, Matching.Error)
            || violations != [] || (gate.Some? && gate.value.route == Gate.Escalate)
    ensures Draft(checks, matched, violations, gate).Err? ==>
              Draft(checks, matched, violations, gate).error == RoutingBug
  {
    ValidationEntriesExist(checks);
    MatchingEntriesExist(matched);
    assert |Entries(checks, matched, violations)|
        == |ValidationEntries(checks)| + |MatchingEntries(matched)| + |violations|;
  }

  lemma DraftHoldsMaximum(
    checks: seq<Validation.CheckResult>, matched: seq<Matching.MatchFinding>,
    violations: seq<Policy.PolicyFinding>, gate: Option<Gate.GateDecision>, i: nat)
    requires i < |Entries(checks, matched, violations)|
    ensures var draft := Draft(checks, matched, violations, gate);
            draft.Ok? && Rank(SeverityOf(Entries(checks, matched, violations)[i].code)) <= Rank(draft.value.severity)
  {
    var entries := Entries(checks, matched, violations);
    assert Codes(entries)[i] == entries[i].code;
    PrimaryIsMostSevere(Codes(entries), entries[i].code);
  }

  // ------------------------------------------------------------------ what a draft says

  /** The exception queue each kind of finding belongs to. */
  function QueueOf(p: TriageFinding): ExceptionCode {
    match p
    case FromGate(_) => ApprovalRequired
    case FromPolicy(v) => v.code
    case FromMatching(f) => (
      match f.code
      case PriceMm => ExceptionCode.PriceMm
      case PriceDrift => ExceptionCode.PriceMm
      case QtyMm => ExceptionCode.QtyMm
      case UomMm => ExceptionCode.QtyMm
      case LineNotOnPo => ExceptionCode.QtyMm
      case GrLineMissing => ExceptionCode.QtyMm
      case VendorMm => ExceptionCode.BankChange
      case CcyMm => ExceptionCode.CcyMm
      case MissingPo => ExceptionCode.MissingPo)
    case FromValidation(c) => (
      match c.code
      case SchemaMissingField =>
        if c.field == Some(Validation.Currency) then ExceptionCode.CcyMm
        else if c.field == Some(Validation.VendorName) || c.field == Some(Validation.IbanField)
        then ExceptionCode.BankChange
        else ExceptionCode.MathErr
      case SchemaBadCurrency => ExceptionCode.CcyMm
      case SchemaBadIban => ExceptionCode.BankChange
      case MathErr => ExceptionCode.MathErr
      case MathLineErr => ExceptionCode.MathErr
      case TaxErr => ExceptionCode.TaxErr
      case TaxUnknownCode => ExceptionCode.TaxErr
      case TaxMissingCode => ExceptionCode.TaxErr)
  }

  /** Duplicates come first, then a changed account, then what is wrong with the order and its figures,
      then what only needs approving, and arithmetic last. */
  function Urgency(code: ExceptionCode): nat {
    match code
    case DupExact => 0
    case DupNear => 1
    case BankChange => 2
    case MissingPo => 3
    case PriceMm => 4
    case QtyMm => 5
    case ApprovalRequired => 6
    case StalePo => 7
    case CcyMm => 8
    case TaxErr => 9
    case MathErr => 10
  }

  /** Only an exact duplicate is critical; currency, tax and arithmetic are medium; the rest is high. */
  function Gravity(code: ExceptionCode): ExceptionSeverity {
    if code == DupExact then Critical
    else if code == ExceptionCode.CcyMm || code == ExceptionCode.TaxErr || code == ExceptionCode.MathErr then Medium
    else High
  }

  /** A finding that stops the automatic path: a validation or matching error, or any policy finding. */
  predicate IsHard(
    checks: seq<Validation.CheckResult>, matched: seq<Matching.MatchFinding>, violations: seq<Policy.PolicyFinding>,
    p: TriageFinding)
  {
    match p
    case FromValidation(c) => c in checks && c.severity == Validation.Error
    case FromMatching(f) => f in matched && f.severity == Matching.Error
    case FromPolicy(v) => v in violations
    case FromGate(_) => false
  }

  predicate Coded(entries: seq<Entry>) {
    forall e :: e in entries ==> e.code == QueueOf(e.payload)
  }

  predicate Carries(entries: seq<Entry>, p: TriageFinding) {
    exists k :: 0 <= k < |entries| && entries[k].payload == p
  }

  lemma CarriesAppended(entries: seq<Entry>, e: Entry, p: TriageFinding)
    ensures Carries(entries + [e], p) <==> Carries(entries, p) || e.payload == p
  {
    var all := entries + [e];
    assert all[|entries|] == e;
    assert forall k :: 0 <= k < |entries| ==> all[k] == entries[k];
  }

  lemma CarriesConcat(a: seq<Entry>, b: seq<Entry>, p: TriageFinding)
    ensures Carries(a + b, p) <==> Carries(a, p) || Carries(b, p)
  {
    if k :| 0 <= k < |a| && a[k].payload == p { assert (a + b)[k].payload == p; }
    if k :| 0 <= k < |b| && b[k].payload == p { assert (a + b)[|a| + k].payload == p; }
  }

  lemma {:induction false} ValidationEntriesMean(checks: seq<Validation.CheckResult>, p: TriageFinding)
    ensures Coded(ValidationEntries(checks))
    ensures Carries(ValidationEntries(checks), p)
       <==> p.FromValidation? && p.check in checks && p.check.severity == Validation.Error
  {
    if checks != [] {
      var n := |checks| - 1;
      ValidationEntriesMean(checks[..n], p);
      assert checks == checks[..n] + [checks[n]];
      var e := Entry(CodeForValidation(checks[n]), FromValidation(checks[n]));
      CarriesAppended(ValidationEntries(checks[..n]), e, p);
      hide Carries;
    }
  }

  lemma {:induction false} MatchingEntriesMean(findings: seq<Matching.MatchFinding>, p: TriageFinding)
    ensures Coded(MatchingEntries(findings))
    ensures Carries(MatchingEntries(findings), p)
       <==> p.FromMatching? && p.finding in findings && p.finding.severity == Matching.Error
  {
    if findings != [] {
      var n := |findings| - 1;
      MatchingEntriesMean(findings[..n], p);
      assert findings == findings[..n] + [findings[n]];
      var e := Entry(CodeForMatching(findings[n]), FromMatching(findings[n]));
      CarriesAppended(MatchingEntries(findings[..n]), e, p);
      hide Carries;
    }
  }

  lemma PolicyEntriesMean(violations: seq<Policy.PolicyFinding>, p: TriageFinding)
    ensures Coded(PolicyEntries(violations))
    ensures Carries(PolicyEntries(violations), p) <==> p.FromPolicy? && p.violation in violations
  {
    var entries := PolicyEntries(violations);
    if p.FromPolicy? && p.violation in violations {
      var k :| 0 <= k < |violations| && violations[k] == p.violation;
      assert entries[k].payload == p;
    }
  }

  lemma EntriesMean(
    checks: seq<Validation.CheckResult>, matched: seq<Matching.MatchFinding>, violations: seq<Policy.PolicyFinding>,
    p: TriageFinding)
    ensures Coded(Entries(checks, matched, violations))
    ensures Carries(Entries(checks, matched, violations), p) <==> IsHard(checks, matched, violations, p)
  {
    hide Carries;
    ValidationEntriesMean(checks, p);
    MatchingEntriesMean(matched, p);
    PolicyEntriesMean(violations, p);
    CarriesConcat(ValidationEntries(checks) + MatchingEntries(matched), PolicyEntries(violations), p);
    CarriesConcat(ValidationEntries(checks), MatchingEntries(matched), p);
    var a, b, c := ValidationEntries(checks), MatchingEntries(matched), PolicyEntries(violations);
    assert forall e :: e in a + b + c <==> e in a || e in b || e in c;
    hide ValidationEntries, MatchingEntries, PolicyEntries, QueueOf;
  }

  lemma TablesAgree(code: ExceptionCode)
    ensures SeverityOf(code) == Gravity(code) && Place(code) == Urgency(code)
  {}

  /** A drafted exception carries exactly the hard findings, or the abstention where there is none; its code
      is the queue of one of them, of the most urgent; and the code fixes the severity. */
  lemma DraftMeans(
    checks: seq<Validation.CheckResult>, matched: seq<Matching.MatchFinding>, violations: seq<Policy.PolicyFinding>,
    gate: Option<Gate.GateDecision>, p: TriageFinding)
    requires Draft(checks, matched, violations, gate).Ok?
    ensures var d := Draft(checks, matched, violations, gate).value;
            && d.findings != []
            && (p in d.findings
                <==> IsHard(checks, matched, violations, p)
                     || (p.FromGate? && gate == Some(p.decision) && p.decision.route == Gate.Escalate
                         && d.findings == [p]))
            && (exists q :: q in d.findings && QueueOf(q) == d.code)
            && (p in d.findings ==> Urgency(d.code) <= Urgency(QueueOf(p)))
            && d.severity == Gravity(d.code)
  {
    hide IsHard, QueueOf, Urgency, Gravity, Place, SeverityOf;
    var entries := Entries(checks, matched, violations);
    var d := Draft(checks, matched, violations, gate).value;
    EntriesMean(checks, matched, violations, p);
    hide Entries;
    TablesAgree(d.code);
    if entries == [] {
      NothingHard(checks, matched, violations, p, gate.value);
      assert FromGate(gate.value) in d.findings;
    } else {
      DraftedFrom(entries, p);
      TablesAgree(QueueOf(p));
    }
  }

  lemma NothingHard(
    checks: seq<Validation.CheckResult>, matched: seq<Matching.MatchFinding>, violations: seq<Policy.PolicyFinding>,
    p: TriageFinding, decision: Gate.GateDecision)
    ensures p.FromGate? ==> !IsHard(checks, matched, violations, p)
    ensures QueueOf(FromGate(decision)) == ApprovalRequired
  {}

  lemma DraftedFrom(entries: seq<Entry>, p: TriageFinding)
    requires entries != [] && Coded(entries)
    ensures var primary := MostPrecedent(Codes(entries));
            && Payloads(entries) != []
            && (p in Payloads(entries) <==> Carries(entries, p))
            && (exists q :: q in Payloads(entries) && QueueOf(q) == primary)
            && (p in Payloads(entries) ==> Place(primary) <= Place(QueueOf(p)))
  {
    hide QueueOf, Place;
    var codes, primary := Codes(entries), MostPrecedent(Codes(entries));
    assert codes[0] == entries[0].code;
    var k :| 0 <= k < |codes| && codes[k] == primary;
    assert entries[k] in entries && Payloads(entries)[k] == entries[k].payload;
    assert Payloads(entries)[k] in Payloads(entries);
    if j :| 0 <= j < |entries| && entries[j].payload == p { assert Payloads(entries)[j] == p; }
    if p in Payloads(entries) {
      var j :| 0 <= j < |entries| && Payloads(entries)[j] == p;
      assert entries[j] in entries && codes[j] in codes;
    }
  }
}
