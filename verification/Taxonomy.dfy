/** The exception taxonomy: codes, severities, mappings, and the primary code. */
module Taxonomy {
  import opened Common
  import Validation
  import Matching

  datatype ExceptionCode =
    | DupExact | DupNear | PriceMm | QtyMm | MissingPo | BankChange
    | CcyMm | TaxErr | MathErr | StalePo | ApprovalRequired

  datatype ExceptionSeverity = Low | Medium | High | Critical

  function SeverityOf(code: ExceptionCode): ExceptionSeverity {
    match code
    case DupExact => Critical
    case DupNear => High
    case BankChange => High
    case MissingPo => High
    case PriceMm => High
    case QtyMm => High
    case CcyMm => Medium
    case StalePo => High
    case ApprovalRequired => High
    case TaxErr => Medium
    case MathErr => Medium
  }

  function SeverityName(severity: ExceptionSeverity): string {
    match severity
    case Low => "LOW"
    case Medium => "MEDIUM"
    case High => "HIGH"
    case Critical => "CRITICAL"
  }

  function Rank(severity: ExceptionSeverity): nat {
    match severity
    case Low => 0
    case Medium => 1
    case High => 2
    case Critical => 3
  }

  const CODE_PRECEDENCE: seq<ExceptionCode> :=
    [DupExact, DupNear, BankChange, MissingPo, PriceMm, QtyMm, ApprovalRequired, StalePo, CcyMm, TaxErr, MathErr]

  // ------------------------------------------------------------------ mappings

  /** The queue a missing field breaks; fields without an entry of their own fall back to MATH_ERR.
      Validation never reports `po_number` or `tax_total` as missing, so their entries are not needed. */
  function MissingFieldCode(field: Validation.Field): ExceptionCode {
    match field
    case Currency => CcyMm
    case TotalAmount => MathErr
    case IbanField => BankChange
    case VendorName => BankChange
    case _ => MathErr
  }

  function CodeForValidation(check: Validation.CheckResult): ExceptionCode {
    match check.code
    case SchemaMissingField => if check.field.Some? then MissingFieldCode(check.field.value) else MathErr
    case SchemaBadCurrency => CcyMm
    case SchemaBadIban => BankChange
    case MathErr => MathErr
    case MathLineErr => MathErr
    case TaxErr => TaxErr
    case TaxUnknownCode => TaxErr
    case TaxMissingCode => TaxErr
  }

  function CodeForMatching(finding: Matching.MatchFinding): ExceptionCode {
    match finding.code
    case MissingPo => MissingPo
    case PriceMm => PriceMm
    case PriceDrift => PriceMm
    case QtyMm => QtyMm
    case CcyMm => CcyMm
    case VendorMm => BankChange
    case UomMm => QtyMm
    case LineNotOnPo => QtyMm
    case GrLineMissing => QtyMm
  }

  // ------------------------------------------------------------------ the primary code

  /** The place of a code in the precedence table; smaller is more precedent. */
  function Place(code: ExceptionCode): (p: nat)
    ensures p < |CODE_PRECEDENCE| && CODE_PRECEDENCE[p] == code
  {
    match code
    case DupExact => 0
    case DupNear => 1
    case BankChange => 2
    case MissingPo => 3
    case PriceMm => 4
    case QtyMm => 5
    case ApprovalRequired => 6
    case StalePo => 7
    case CcyMm => 8
    case TaxErr => 9
    case MathErr => 10
  }

  function MorePrecedent(a: ExceptionCode, b: ExceptionCode): ExceptionCode {
    if Place(a) <= Place(b) then a else b
  }

  /** The maximum of a non-empty list in precedence order. */
  function MostPrecedent(codes: seq<ExceptionCode>): (c: ExceptionCode)
    requires codes != []
    ensures c in codes
    ensures forall d :: d in codes ==> Place(c) <= Place(d)
  {
    if |codes| == 1 then codes[0]
    else
      var n := |codes| - 1;
      assert codes == codes[..n] + [codes[n]];
      MorePrecedent(MostPrecedent(codes[..n]), codes[n])
  }

  /** The early-return scan of the precedence table. */
  method PrimaryCode(codes: seq<ExceptionCode>) returns (r: Result<ExceptionCode, string>)
    ensures codes == [] <==> r.Err?
    ensures codes != [] ==> r == Ok(MostPrecedent(codes))
  {
    for i := 0 to |CODE_PRECEDENCE|
      invariant forall c :: c in codes ==> Place(c) >= i
      invariant codes != [] ==> i <= Place(codes[0]) < |CODE_PRECEDENCE|
    {
      if CODE_PRECEDENCE[i] in codes {
        assert Place(CODE_PRECEDENCE[i]) == i;
        assert Place(MostPrecedent(codes)) <= i;
        return Ok(CODE_PRECEDENCE[i]);
      }
    }
    r := Err("primary_code() called with no codes");
  }

  lemma PlaceIsInjective(a: ExceptionCode, b: ExceptionCode)
    requires Place(a) == Place(b)
    ensures a == b
  {}

  /** Order and repetition of the findings do not matter. */
  lemma PrimaryDependsOnSet(a: seq<ExceptionCode>, b: seq<ExceptionCode>)
    requires a != [] && b != [] && forall c :: c in a <==> c in b
    ensures MostPrecedent(a) == MostPrecedent(b)
  {
    PlaceIsInjective(MostPrecedent(a), MostPrecedent(b));
  }

  /** The primary of a union is the more precedent of the two primaries. */
  lemma PrimaryOfUnion(a: seq<ExceptionCode>, b: seq<ExceptionCode>)
    requires a != [] && b != []
    ensures MostPrecedent(a + b) == MorePrecedent(MostPrecedent(a), MostPrecedent(b))
  {
    assert forall c :: c in a + b <==> c in a || c in b;
    PlaceIsInjective(MostPrecedent(a + b), MorePrecedent(MostPrecedent(a), MostPrecedent(b)));
  }

  lemma PrecedenceFollowsSeverity(a: ExceptionCode, b: ExceptionCode)
    requires Place(a) <= Place(b)
    ensures Rank(SeverityOf(a)) >= Rank(SeverityOf(b))
  {}

  /** The primary's severity is the highest severity among the findings. */
  lemma PrimaryIsMostSevere(codes: seq<ExceptionCode>, c: ExceptionCode)
    requires c in codes
    ensures Rank(SeverityOf(c)) <= Rank(SeverityOf(MostPrecedent(codes)))
  {
    PrecedenceFollowsSeverity(MostPrecedent(codes), c);
  }
}
