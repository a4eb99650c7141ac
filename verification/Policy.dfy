/** The deterministic policy engine: four rules, each of which forces human review. */
module Policy {
  import opened Common
  import opened Taxonomy
  import Text
  import NearDup

  datatype InvoiceFacts = InvoiceFacts(
    currency: Option<string>,
    totalAmount: Option<real>,
    iban: Option<string>,
    issueDate: Option<int>)

  datatype PoFacts = PoFacts(poNumber: string, status: string, orderedAt: Option<int>)

  datatype VendorFacts = VendorFacts(name: string, iban: Option<string>)

  datatype PolicyContext = PolicyContext(
    invoice: InvoiceFacts,
    po: Option<PoFacts>,
    vendor: Option<VendorFacts>,
    nearDupHits: seq<NearDup.NearDupHit>)

  datatype PolicyFinding = PolicyFinding(ruleId: string, code: ExceptionCode, severity: ExceptionSeverity)

  const STALE_PO_DAYS := 90

  function AutoApproveLimit(currency: string): Option<real> {
    if currency == "EUR" then Some(2500.0) else None
  }

  function NormIban(iban: string): string {
    Text.Upper(Text.DropBlanks(iban))
  }

  /** Findings carry the severity the taxonomy assigns to their code. */
  function Finding(ruleId: string, code: ExceptionCode): PolicyFinding {
    PolicyFinding(ruleId, code, SeverityOf(code))
  }

  function RuleSpendLimit(c: PolicyContext): Option<PolicyFinding> {
    if c.invoice.totalAmount.None? then None
    else
      var currency := if c.invoice.currency.Some? then Text.Upper(c.invoice.currency.value) else "";
      var limit := AutoApproveLimit(currency);
      if limit.Some? && c.invoice.totalAmount.value <= limit.value then None
      else Some(Finding("spend-limit", ApprovalRequired))
  }

  predicate Aged(orderedAt: Option<int>, issueDate: int) {
    orderedAt.Some? && issueDate - orderedAt.value > STALE_PO_DAYS
  }

  function RuleStalePo(c: PolicyContext): Option<PolicyFinding> {
    if c.po.None? || c.invoice.issueDate.None? then None
    else if Text.Upper(c.po.value.status) == "CLOSED" || Aged(c.po.value.orderedAt, c.invoice.issueDate.value)
    then Some(Finding("stale-po", StalePo))
    else None
  }

  function RuleBankChange(c: PolicyContext): Option<PolicyFinding> {
    if c.invoice.iban.None? || c.vendor.None? || c.vendor.value.iban.None? then None
    else if NormIban(c.invoice.iban.value) == NormIban(c.vendor.value.iban.value) then None
    else Some(Finding("bank-change", BankChange))
  }

  function RuleNearDup(c: PolicyContext): Option<PolicyFinding> {
    if c.nearDupHits == [] then None else Some(Finding("near-dup", DupNear))
  }

  function Evaluate(c: PolicyContext): seq<PolicyFinding> {
    Listed(RuleSpendLimit(c)) + Listed(RuleStalePo(c)) + Listed(RuleBankChange(c)) + Listed(RuleNearDup(c))
  }

  predicate AllHigh(findings: seq<PolicyFinding>) {
    forall k :: 0 <= k < |findings| ==>
      findings[k].severity == High && findings[k].severity == SeverityOf(findings[k].code)
  }

  /** Policy only ever forces review: every finding is HIGH and matches the taxonomy. */
  lemma FindingsAreHigh(c: PolicyContext)
    ensures AllHigh(Evaluate(c))
  {
    hide Text.Upper, NormIban, Aged, AutoApproveLimit;
  }

  /** The same account number, whatever its letter case and however it is grouped by blanks. */
  predicate SameAccount(a: string, b: string) {
    Text.SameLetters(Text.DropBlanks(a), Text.DropBlanks(b))
  }

  lemma RulesMean(c: PolicyContext)
    ensures RuleSpendLimit(c).Some?
       <==> c.invoice.totalAmount.Some?
            && !(c.invoice.currency.Some? && Text.SameLetters(c.invoice.currency.value, "EUR")
                 && c.invoice.totalAmount.value <= 2500.0)
    ensures RuleStalePo(c).Some?
       <==> c.po.Some? && c.invoice.issueDate.Some?
            && (Text.SameLetters(c.po.value.status, "CLOSED")
                || (c.po.value.orderedAt.Some? && c.invoice.issueDate.value - c.po.value.orderedAt.value > 90))
    ensures RuleBankChange(c).Some?
       <==> c.invoice.iban.Some? && c.vendor.Some? && c.vendor.value.iban.Some?
            && !SameAccount(c.invoice.iban.value, c.vendor.value.iban.value)
  {
    hide Text.SameLetters, Text.Upper, Text.DropBlanks;
    EurIsUpper();
    if c.invoice.currency.Some? { Text.FoldingForgetsCase(c.invoice.currency.value, "EUR"); }
    if c.po.Some? { Text.FoldingForgetsCase(c.po.value.status, "CLOSED"); }
    if c.invoice.iban.Some? && c.vendor.Some? && c.vendor.value.iban.Some? {
      Text.FoldingForgetsCase(
        Text.DropBlanks(c.invoice.iban.value), Text.DropBlanks(c.vendor.value.iban.value));
    }
  }

  lemma EurIsUpper()
    ensures Text.Upper("EUR") == "EUR" && Text.Upper("CLOSED") == "CLOSED"
    ensures Text.Upper("") == ""
  {}

  /** What an invoice has to satisfy to leave policy without a finding. */
  predicate WithinPolicy(c: PolicyContext) {
    && (c.invoice.totalAmount.Some? ==>
          c.invoice.currency.Some? && Text.SameLetters(c.invoice.currency.value, "EUR")
          && c.invoice.totalAmount.value <= 2500.0)
    && (c.po.Some? && c.invoice.issueDate.Some? ==>
          !Text.SameLetters(c.po.value.status, "CLOSED")
          && (c.po.value.orderedAt.Some? ==> c.invoice.issueDate.value - c.po.value.orderedAt.value <= 90))
    && (c.invoice.iban.Some? && c.vendor.Some? && c.vendor.value.iban.Some? ==>
          SameAccount(c.invoice.iban.value, c.vendor.value.iban.value))
    && c.nearDupHits == []
  }

  lemma CleanIffWithinPolicy(c: PolicyContext)
    ensures Evaluate(c) == [] <==> WithinPolicy(c)
  {
    RulesMean(c);
    hide SameAccount, Text.SameLetters, RuleSpendLimit, RuleStalePo, RuleBankChange;
    var a, b := Listed(RuleSpendLimit(c)), Listed(RuleStalePo(c));
    var d, e := Listed(RuleBankChange(c)), Listed(RuleNearDup(c));
    assert |Evaluate(c)| == |a| + |b| + |d| + |e|;
  }

  predicate Reports(findings: seq<PolicyFinding>, code: ExceptionCode) {
    exists k :: 0 <= k < |findings| && findings[k].code == code
  }

  lemma ReportsConcat(a: seq<PolicyFinding>, b: seq<PolicyFinding>, code: ExceptionCode)
    ensures Reports(a + b, code) <==> Reports(a, code) || Reports(b, code)
  {
    if k :| 0 <= k < |a| && a[k].code == code { assert (a + b)[k].code == code; }
    if k :| 0 <= k < |b| && b[k].code == code { assert (a + b)[|a| + k].code == code; }
  }

  lemma ReportsSingle(f: Option<PolicyFinding>, code: ExceptionCode)
    ensures Reports(Listed(f), code) <==> f.Some? && f.value.code == code
  {
    if f.Some? { assert Listed(f)[0] == f.value; }
  }

  /** Each code is reported for its own reason and no other. */
  lemma CodesNameTheirReasons(c: PolicyContext)
    ensures Reports(Evaluate(c), ApprovalRequired)
       <==> c.invoice.totalAmount.Some?
            && !(c.invoice.currency.Some? && Text.SameLetters(c.invoice.currency.value, "EUR")
                 && c.invoice.totalAmount.value <= 2500.0)
    ensures Reports(Evaluate(c), StalePo)
       <==> c.po.Some? && c.invoice.issueDate.Some?
            && (Text.SameLetters(c.po.value.status, "CLOSED")
                || (c.po.value.orderedAt.Some? && c.invoice.issueDate.value - c.po.value.orderedAt.value > 90))
    ensures Reports(Evaluate(c), BankChange)
       <==> c.invoice.iban.Some? && c.vendor.Some? && c.vendor.value.iban.Some?
            && !SameAccount(c.invoice.iban.value, c.vendor.value.iban.value)
    ensures Reports(Evaluate(c), DupNear) <==> c.nearDupHits != []
  {
    forall code ensures Reports(Evaluate(c), code)
                   <==> Reports(Listed(RuleSpendLimit(c)), code) || Reports(Listed(RuleStalePo(c)), code)
                        || Reports(Listed(RuleBankChange(c)), code) || Reports(Listed(RuleNearDup(c)), code)
    {
      ReportsConcat(Listed(RuleSpendLimit(c)), Listed(RuleStalePo(c)), code);
      ReportsConcat(Listed(RuleSpendLimit(c)) + Listed(RuleStalePo(c)), Listed(RuleBankChange(c)), code);
      ReportsConcat(Listed(RuleSpendLimit(c)) + Listed(RuleStalePo(c)) + Listed(RuleBankChange(c)),
                    Listed(RuleNearDup(c)), code);
    }
    forall f: Option<PolicyFinding>, code: ExceptionCode
      ensures Reports(Listed(f), code) <==> f.Some? && f.value.code == code
    {
      ReportsSingle(f, code);
    }
    RulesMean(c);
    RulesUseOneCode(c);
    hide Reports, Evaluate, Listed, RuleSpendLimit, RuleStalePo, RuleBankChange, SameAccount, Text.SameLetters;
  }

  lemma RulesUseOneCode(c: PolicyContext)
    ensures RuleSpendLimit(c).Some? ==> RuleSpendLimit(c).value.code == ApprovalRequired
    ensures RuleStalePo(c).Some? ==> RuleStalePo(c).value.code == StalePo
    ensures RuleBankChange(c).Some? ==> RuleBankChange(c).value.code == BankChange
  {
    hide Text.Upper, NormIban, Aged;
  }

  // ------------------------------------------------------------------ the vendor's account

  predicate Compact(s: string) {
    forall i :: 0 <= i < |s| ==> 'A' <= s[i] <= 'Z' || '0' <= s[i] <= '9'
  }

  predicate KnowsAccounts(c: PolicyContext, a: string, b: string) {
    c.invoice.iban == Some(a) && c.vendor.Some? && c.vendor.value.iban == Some(b)
  }

  lemma {:induction false} CompactHasNoBlanks(s: string)
    requires Compact(s)
    ensures Text.DropBlanks(s) == s
  {
    if s != "" {
      CompactHasNoBlanks(s[1..]);
      assert s == [s[0]] + s[1..];
    }
  }

  /** Between account numbers in capitals and digits, a change is reported exactly when they differ. */
  lemma OtherAccountIsReported(c: PolicyContext, a: string, b: string)
    requires KnowsAccounts(c, a, b) && Compact(a) && Compact(b)
    ensures Reports(Evaluate(c), BankChange) <==> a != b
  {
    hide Evaluate, Reports, Text.DropBlanks;
    CodesNameTheirReasons(c);
    CompactHasNoBlanks(a);
    CompactHasNoBlanks(b);
    if Text.SameLetters(a, b) { assert forall i :: 0 <= i < |a| ==> a[i] == b[i]; }
  }

  /** The context with another spelling of the two account numbers. */
  function Respelled(c: PolicyContext, a: string, b: string): PolicyContext
    requires c.vendor.Some?
  {
    c.(invoice := c.invoice.(iban := Some(a)), vendor := Some(c.vendor.value.(iban := Some(b))))
  }

  /** A blank more anywhere, on either side, changes nothing. */
  lemma BlanksAreIrrelevant(c: PolicyContext, a: string, b: string, j: nat, k: nat)
    requires KnowsAccounts(c, a, b) && j <= |a| && k <= |b|
    ensures Reports(Evaluate(Respelled(c, a[..j] + " " + a[j..], b[..k] + " " + b[k..])), BankChange)
       <==> Reports(Evaluate(c), BankChange)
  {
    hide Evaluate, Reports, Text.DropBlanks, Text.SameLetters;
    var spaced := Respelled(c, a[..j] + " " + a[j..], b[..k] + " " + b[k..]);
    CodesNameTheirReasons(c);
    CodesNameTheirReasons(spaced);
    BlankDropsOut(a[..j], a[j..]);
    BlankDropsOut(b[..k], b[k..]);
    assert a[..j] + a[j..] == a && b[..k] + b[k..] == b;
  }

  lemma BlankDropsOut(head: string, tail: string)
    ensures Text.DropBlanks(head + " " + tail) == Text.DropBlanks(head + tail)
  {
    hide Text.DropBlanks;
    var blank := [' '];
    assert " " == blank;
    Text.DropBlanksPiecewise(head + blank, tail, ' ');
    Text.DropBlanksPiecewise(head, blank, ' ');
    Text.DropBlanksPiecewise(head, tail, ' ');
  }

  /** Neither does another letter case. */
  lemma CaseIsIrrelevant(c: PolicyContext, a: string, b: string, a': string, b': string)
    requires KnowsAccounts(c, a, b) && Text.SameLetters(a, a') && Text.SameLetters(b, b')
    ensures Reports(Evaluate(Respelled(c, a', b')), BankChange) <==> Reports(Evaluate(c), BankChange)
  {
    hide Evaluate, Reports;
    CodesNameTheirReasons(c);
    CodesNameTheirReasons(Respelled(c, a', b'));
    BlanksKeepLetters(a, a');
    BlanksKeepLetters(b, b');
    hide Text.DropBlanks;
  }

  lemma {:induction false} BlanksKeepLetters(a: string, b: string)
    requires Text.SameLetters(a, b)
    ensures Text.SameLetters(Text.DropBlanks(a), Text.DropBlanks(b))
  {
    if a != "" {
      assert forall i :: 0 <= i < |a| - 1 ==> a[1..][i] == a[i + 1] && b[1..][i] == b[i + 1];
      BlanksKeepLetters(a[1..], b[1..]);
      assert Text.SameLetter(a[0], b[0]);
    }
  }
}
