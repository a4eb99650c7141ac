/** Deterministic validation of an extraction: the checks, the report they build,
    and exactly which extractions get past them. */
module Validation {
  import opened Common
  import opened Extraction
  import opened Text
  import Iban

  datatype Severity = Error | Warn

  datatype ReasonCode =
    | SchemaMissingField | SchemaBadCurrency | SchemaBadIban
    | MathErr | MathLineErr | TaxErr | TaxUnknownCode | TaxMissingCode

  /** The extraction fields a check can name. */
  datatype Field = VendorName | InvoiceNumber | IssueDate | DueDate | Currency | TotalAmount | IbanField

  /** One failed check; `lineNo` and `delta` are the figures its detail message quotes. */
  datatype CheckResult = CheckResult(
    code: ReasonCode,
    severity: Severity,
    field: Option<Field>,
    lineNo: Option<string>,
    delta: Option<real>)

  const REQUIRED_ERROR_FIELDS: seq<Field> := [VendorName, InvoiceNumber, IssueDate, Currency, TotalAmount]
  const REQUIRED_WARN_FIELDS: seq<Field> := [DueDate, IbanField]
  const LINE_MATH_TOLERANCE := 0.0
  const TAX_TOLERANCE := 0.01

  function TaxRate(code: string): Option<real> {
    if code == "S" then Some(0.19)
    else if code == "R" then Some(0.07)
    else if code == "Z" then Some(0.0)
    else None
  }

  function IbanLength(country: string): Option<nat> {
    if country == "DE" then Some(22)
    else if country == "FR" then Some(27)
    else if country == "NL" then Some(18)
    else if country == "GB" then Some(22)
    else if country == "US" then Some(34)
    else None
  }

  predicate HasErrors(checks: seq<CheckResult>) {
    exists k :: 0 <= k < |checks| && checks[k].severity == Error
  }

  // ------------------------------------------------------------------ required fields

  predicate FieldPresent(x: InvoiceExtraction, field: Field) {
    match field
    case VendorName => x.vendorName.Some?
    case InvoiceNumber => x.invoiceNumber.Some?
    case IssueDate => x.issueDate.Some?
    case DueDate => x.dueDate.Some?
    case Currency => x.currency.Some?
    case TotalAmount => x.totalAmount.Some?
    case IbanField => x.iban.Some?
  }

  function Missing(field: Field, severity: Severity): CheckResult {
    CheckResult(SchemaMissingField, severity, Some(field), None, None)
  }

  function MissingAmong(x: InvoiceExtraction, fields: seq<Field>, severity: Severity): seq<CheckResult> {
    if fields == [] then []
    else
      var n := |fields| - 1;
      MissingAmong(x, fields[..n], severity)
      + if FieldPresent(x, fields[n]) then [] else [Missing(fields[n], severity)]
  }

  function RequiredFieldFindings(x: InvoiceExtraction): seq<CheckResult> {
    MissingAmong(x, REQUIRED_ERROR_FIELDS, Error) + MissingAmong(x, REQUIRED_WARN_FIELDS, Warn)
  }

  method CheckRequiredFields(x: InvoiceExtraction) returns (results: seq<CheckResult>)
    ensures results == RequiredFieldFindings(x)
  {
    results := [];
    for i := 0 to |REQUIRED_ERROR_FIELDS|
      invariant results == MissingAmong(x, REQUIRED_ERROR_FIELDS[..i], Error)
    {
      assert REQUIRED_ERROR_FIELDS[..i + 1][..i] == REQUIRED_ERROR_FIELDS[..i];
      if !FieldPresent(x, REQUIRED_ERROR_FIELDS[i]) {
        results := results + [Missing(REQUIRED_ERROR_FIELDS[i], Error)];
      }
    }
    assert REQUIRED_ERROR_FIELDS[..|REQUIRED_ERROR_FIELDS|] == REQUIRED_ERROR_FIELDS;
    ghost var hard := results;
    for i := 0 to |REQUIRED_WARN_FIELDS|
      invariant results == hard + MissingAmong(x, REQUIRED_WARN_FIELDS[..i], Warn)
    {
      assert REQUIRED_WARN_FIELDS[..i + 1][..i] == REQUIRED_WARN_FIELDS[..i];
      if !FieldPresent(x, REQUIRED_WARN_FIELDS[i]) {
        results := results + [Missing(REQUIRED_WARN_FIELDS[i], Warn)];
      }
    }
    assert REQUIRED_WARN_FIELDS[..|REQUIRED_WARN_FIELDS|] == REQUIRED_WARN_FIELDS;
  }

  lemma {:induction false} MissingAmongMeaning(x: InvoiceExtraction, fields: seq<Field>, severity: Severity)
    ensures forall c :: c in MissingAmong(x, fields, severity) ==> c.severity == severity
    ensures MissingAmong(x, fields, severity) == []
       <==> forall i :: 0 <= i < |fields| ==> FieldPresent(x, fields[i])
  {
    if fields != [] {
      var n := |fields| - 1;
      MissingAmongMeaning(x, fields[..n], severity);
      assert forall i :: 0 <= i < n ==> fields[i] == fields[..n][i];
    }
  }

  // ------------------------------------------------------------------ currency and IBAN

  predicate CurrencyShaped(currency: string) {
    |currency| == 3 && forall i :: 0 <= i < 3 ==> IsUpperLetter(currency[i])
  }

  function CheckCurrency(x: InvoiceExtraction): Option<CheckResult> {
    if x.currency.None? || CurrencyShaped(x.currency.value) then None
    else Some(CheckResult(SchemaBadCurrency, Error, None, None, None))
  }

  function Normalized(iban: string): string {
    Upper(DropBlanks(iban))
  }

  function Country(normalized: string): string {
    if |normalized| < 2 then normalized else normalized[..2]
  }

  function CheckIban(iban: Option<string>): Option<CheckResult> {
    if iban.None? then None
    else
      var normalized := Normalized(iban.value);
      var length := IbanLength(Country(normalized));
      if length.None? then
        Some(CheckResult(SchemaBadIban, Warn, None, None, None))
      else if |normalized| != length.value || !Iban.AllDigits(normalized[2..4]) then
        Some(CheckResult(SchemaBadIban, Error, None, None, None))
      else if Iban.IbanRemainder(normalized) != 1 then
        Some(CheckResult(SchemaBadIban, Error, None, None, None))
      else None
  }

  // ------------------------------------------------------------------ what the IBAN check means

  /** How long an IBAN of each supported country is; zero for any other country. */
  function LengthIn(country: string): nat {
    if country == "DE" || country == "GB" then 22
    else if country == "FR" then 27
    else if country == "NL" then 18
    else if country == "US" then 34
    else 0
  }

  predicate OfKnownCountry(n: string) {
    |n| >= 2 && LengthIn(n[..2]) > 0
  }

  /** The right length, two check digits, letters and digits only, and, with the first four characters moved to
      the end and letters written as numbers, a remainder of one modulo 97. */
  predicate IsIban(n: string) {
    && OfKnownCountry(n) && |n| == LengthIn(n[..2])
    && '0' <= n[2] <= '9' && '0' <= n[3] <= '9'
    && Iban.AllAlnum(n)
    && Iban.Decimal(Iban.Spelled(n[4..] + n[..4])) % 97 == 1
  }

  lemma CountryLengths(n: string)
    ensures IbanLength(Country(n)).Some? <==> OfKnownCountry(n)
    ensures OfKnownCountry(n) ==> IbanLength(Country(n)).value == LengthIn(n[..2]) && LengthIn(n[..2]) >= 18
  {}

  lemma RearrangedAlnum(n: string)
    requires |n| > 4
    ensures Iban.AllAlnum(n) <==> Iban.AllAlnum(n[4..] + n[..4])
  {
    var r := n[4..] + n[..4];
    assert forall i :: 0 <= i < |n| ==> n[i] == r[if i < 4 then |n| - 4 + i else i - 4];
    assert forall i :: 0 <= i < |r| ==> r[i] == n[if i < |n| - 4 then i + 4 else i - (|n| - 4)];
  }

  /** A country that is not known draws a warning, anything but an IBAN an error, an IBAN nothing. */
  function VerdictOn(n: string): Option<CheckResult> {
    if !OfKnownCountry(n) then Some(CheckResult(SchemaBadIban, Warn, None, None, None))
    else if !IsIban(n) then Some(CheckResult(SchemaBadIban, Error, None, None, None))
    else None
  }

  /** The check looks at the string without its blanks and in capitals. */
  lemma IbanVerdict(s: string)
    ensures CheckIban(Some(s)) == VerdictOn(Upper(DropBlanks(s)))
  {
    var n := Upper(DropBlanks(s));
    CountryLengths(n);
    if OfKnownCountry(n) && |n| == LengthIn(n[..2]) {
      RearrangedAlnum(n);
      if Iban.AllAlnum(n) { Iban.NumberIsDecimal(n[4..] + n[..4]); }
      CheckDigits(n);
    }
    hide Upper, DropBlanks, IbanLength, LengthIn, Iban.Number, Iban.Spelled, Iban.Decimal, Country;
  }

  lemma CheckDigits(n: string)
    requires |n| > 4
    ensures Iban.AllDigits(n[2..4]) <==> '0' <= n[2] <= '9' && '0' <= n[3] <= '9'
  {
    assert n[2..4][0] == n[2] && n[2..4][1] == n[3];
  }

  /** Strings the normalisation leaves alone. */
  predicate Compact(s: string) {
    forall i :: 0 <= i < |s| ==> Iban.IsAlnum(s[i])
  }

  lemma {:induction false} CompactIsNormalized(s: string)
    requires Compact(s)
    ensures DropBlanks(s) == s && Normalized(s) == s
  {
    if s != "" {
      CompactIsNormalized(s[1..]);
      assert s == [s[0]] + s[1..];
    }
    assert Upper(s) == s;
  }

  /** Every generated German IBAN passes validation. */
  lemma GeneratedIbanPasses(bban: string)
    requires |bban| == 18 && Iban.AllDigits(bban)
    ensures CheckIban(Some(Iban.GermanIban(bban))) == None
  {
    var iban := Iban.GermanIban(bban);
    CompactIsNormalized(iban);
    Iban.GeneratedRemainderIsOne(bban);
    assert iban[..2] == "DE";
    assert iban[2..4] == Iban.TwoDigits(Iban.CheckValue(bban));
  }

  /** An IBAN of a listed country that validation accepts. */
  predicate Accepted(s: string) {
    Compact(s) && |s| >= 2 && IbanLength(s[..2]).Some? && CheckIban(Some(s)) == None
  }

  /** Validation reports an error (not a warning, not silence). */
  predicate Refused(s: string) {
    CheckIban(Some(s)).Some? && CheckIban(Some(s)).value.severity == Error
  }

  lemma WrongRemainderRefused(t: string)
    requires Compact(t) && |t| >= 2 && IbanLength(t[..2]).Some?
    requires Iban.IbanRemainder(t) != 1
    ensures Refused(t)
  {
    CompactIsNormalized(t);
  }

  lemma AcceptedMeans(s: string)
    requires Accepted(s)
    ensures |s| >= 18 && Iban.IbanRemainder(s) == 1
  {
    CompactIsNormalized(s);
  }

  /** The rearranged form, cut at the place where position `k` of the IBAN ends up. */
  lemma RearrangedAround(s: string, k: nat, n: nat) returns (before: string, after: string)
    requires |s| > 4 && k + n <= |s| && (k + n <= 4 || k >= 4)
    requires Compact(s)
    ensures Iban.Rearranged(s) == before + s[k..k + n] + after
    ensures Iban.AllAlnum(before) && Iban.AllAlnum(after)
    ensures before == (if k >= 4 then s[4..k] else s[4..] + s[..k])
    ensures after == (if k >= 4 then s[k + n..] + s[..4] else s[k + n..4])
  {
    before := if k >= 4 then s[4..k] else s[4..] + s[..k];
    after := if k >= 4 then s[k + n..] + s[..4] else s[k + n..4];
  }

  lemma ChangeChangesRemainder(s: string, k: nat, d: char)
    requires Compact(s) && |s| > 4 && 2 <= k < |s| && Iban.IbanRemainder(s) == 1
    requires Iban.IsAlnum(d) && d != s[k] && IsDigit(d) == IsDigit(s[k])
    ensures Iban.IbanRemainder(s[k := d]) != 1
  {
    var t := s[k := d];
    var before, after := RearrangedAround(s, k, 1);
    var before', after' := RearrangedAround(t, k, 1);
    assert s[k..k + 1] == [s[k]] && t[k..k + 1] == [d];
    assert before == before' && after == after';
    Iban.SubstitutionDetected(before, s[k], d, after);
  }

  /** Changing any one digit of an accepted IBAN, check digits included, gets it refused;
      so does replacing one letter after the country code by another letter. */
  lemma OneCharacterChangeRefused(s: string, k: nat, d: char)
    requires Accepted(s) && 2 <= k < |s|
    requires Iban.IsAlnum(d) && d != s[k] && IsDigit(d) == IsDigit(s[k])
    ensures Refused(s[k := d])
  {
    AcceptedMeans(s);
    ChangeChangesRemainder(s, k, d);
    assert s[k := d][..2] == s[..2];
    WrongRemainderRefused(s[k := d]);
  }

  function Swapped(s: string, k: nat): string
    requires k + 1 < |s|
  {
    s[..k] + [s[k + 1], s[k]] + s[k + 2..]
  }

  lemma RearrangedParts(head: string, a: string, b: string, c: string)
    requires |head| == 4 && |a + b + c| > 0
    ensures Iban.Rearranged(head + a + b + c) == a + b + (c + head)
  {
    var s := head + a + b + c;
    assert s[4..] == a + b + c && s[..4] == head;
  }

  lemma SwappedRearranged(s: string, k: nat)
    requires 4 <= k && k + 1 < |s|
    ensures Iban.Rearranged(s) == s[4..k] + [s[k], s[k + 1]] + (s[k + 2..] + s[..4])
    ensures Iban.Rearranged(Swapped(s, k)) == s[4..k] + [s[k + 1], s[k]] + (s[k + 2..] + s[..4])
  {
    RearrangedParts(s[..4], s[4..k], [s[k], s[k + 1]], s[k + 2..]);
    RearrangedParts(s[..4], s[4..k], [s[k + 1], s[k]], s[k + 2..]);
    assert s == s[..4] + s[4..k] + [s[k], s[k + 1]] + s[k + 2..];
    assert s[..k] == s[..4] + s[4..k];
  }

  lemma SameRemainderNotSwapped(before: string, c: char, d: char, after: string)
    requires Iban.AllAlnum(before) && Iban.AllAlnum(after) && IsDigit(c) && IsDigit(d)
    requires Iban.Number(before + [c, d] + after) % 97 == Iban.Number(before + [d, c] + after) % 97
    ensures c == d
  {
    if c != d {
      Iban.TranspositionDetected(before, c, d, after);
    }
  }

  lemma SwapChangesRemainder(s: string, k: nat)
    requires Compact(s) && 4 <= k && k + 1 < |s| && Iban.IbanRemainder(s) == 1
    requires IsDigit(s[k]) && IsDigit(s[k + 1]) && s[k] != s[k + 1]
    ensures Compact(Swapped(s, k)) && Swapped(s, k)[..2] == s[..2]
    ensures Iban.IbanRemainder(Swapped(s, k)) != 1
  {
    SwappedRearranged(s, k);
    if Iban.IbanRemainder(Swapped(s, k)) == 1 {
      SameRemainderNotSwapped(s[4..k], s[k], s[k + 1], s[k + 2..] + s[..4]);
    }
  }

  /** Swapping two adjacent unequal digits behind the check digits gets an accepted IBAN refused. */
  lemma AdjacentSwapRefused(s: string, k: nat)
    requires Accepted(s) && 4 <= k && k + 1 < |s|
    requires IsDigit(s[k]) && IsDigit(s[k + 1]) && s[k] != s[k + 1]
    ensures Refused(Swapped(s, k))
  {
    AcceptedMeans(s);
    SwapChangesRemainder(s, k);
    WrongRemainderRefused(Swapped(s, k));
  }

  // ------------------------------------------------------------------ line and total arithmetic

  predicate LineComplete(line: ExtractionLine) {
    line.qty.Some? && line.unitPrice.Some? && line.lineTotal.Some?
  }

  function LineDelta(line: ExtractionLine): real
    requires LineComplete(line)
  {
    line.lineTotal.value - line.qty.value * line.unitPrice.value
  }

  predicate LineBroken(line: ExtractionLine) {
    LineComplete(line) && Abs(LineDelta(line)) > LINE_MATH_TOLERANCE
  }

  function LineFindings(lines: seq<ExtractionLine>): seq<CheckResult> {
    if lines == [] then []
    else
      var n := |lines| - 1;
      var before := LineFindings(lines[..n]);
      if LineBroken(lines[n])
      then before + [CheckResult(MathLineErr, Error, None, Some(lines[n].lineNo), Some(LineDelta(lines[n])))]
      else before
  }

  predicate AnyLineTotal(lines: seq<ExtractionLine>) {
    exists i :: 0 <= i < |lines| && lines[i].lineTotal.Some?
  }

  /** The sum of the line totals that were extracted. */
  function StatedSum(lines: seq<ExtractionLine>): real {
    if lines == [] then 0.0
    else StatedSum(lines[..|lines| - 1]) + OrZero(lines[|lines| - 1].lineTotal)
  }

  predicate TotalBroken(x: InvoiceExtraction) {
    x.totalAmount.Some? && AnyLineTotal(x.lines) &&
    Abs(x.totalAmount.value - StatedSum(x.lines)) > LINE_MATH_TOLERANCE
  }

  function LineMathFindings(x: InvoiceExtraction): seq<CheckResult> {
    LineFindings(x.lines)
    + if TotalBroken(x)
      then [CheckResult(MathErr, Error, None, None, Some(x.totalAmount.value - StatedSum(x.lines)))]
      else []
  }

  lemma AnyLineTotalGrows(lines: seq<ExtractionLine>, i: nat)
    requires i < |lines|
    ensures AnyLineTotal(lines[..i + 1]) <==> AnyLineTotal(lines[..i]) || lines[i].lineTotal.Some?
  {
    var before, now := lines[..i], lines[..i + 1];
    assert forall j :: 0 <= j < i ==> before[j] == now[j];
    assert now[i] == lines[i];
  }

  method CheckLineMath(x: InvoiceExtraction) returns (results: seq<CheckResult>)
    ensures results == LineMathFindings(x)
  {
    results := [];
    var statedSum, seen := 0.0, false;
    for i := 0 to |x.lines|
      invariant results == LineFindings(x.lines[..i])
      invariant statedSum == StatedSum(x.lines[..i])
      invariant seen <==> AnyLineTotal(x.lines[..i])
    {
      assert x.lines[..i + 1][..i] == x.lines[..i];
      var line := x.lines[i];
      assert x.lines[..i + 1][i] == line;
      if LineComplete(line) {
        var expected := line.qty.value * line.unitPrice.value;
        var delta := line.lineTotal.value - expected;
        assert delta == LineDelta(line);
        if Abs(delta) > LINE_MATH_TOLERANCE {
          results := results + [CheckResult(MathLineErr, Error, None, Some(line.lineNo), Some(delta))];
        }
      }
      AnyLineTotalGrows(x.lines, i);
      if line.lineTotal.Some? {
        statedSum, seen := statedSum + line.lineTotal.value, true;
      }
    }
    assert x.lines[..|x.lines|] == x.lines;
    if x.totalAmount.Some? && seen {
      var delta := x.totalAmount.value - statedSum;
      if Abs(delta) > LINE_MATH_TOLERANCE {
        results := results + [CheckResult(MathErr, Error, None, None, Some(delta))];
      }
    }
  }

  lemma {:induction false} LineFindingsMeaning(lines: seq<ExtractionLine>)
    ensures forall c :: c in LineFindings(lines) ==> c.severity == Error
    ensures LineFindings(lines) == [] <==> forall i :: 0 <= i < |lines| ==> !LineBroken(lines[i])
  {
    if lines != [] {
      var n := |lines| - 1;
      LineFindingsMeaning(lines[..n]);
      assert forall i :: 0 <= i < n ==> lines[i] == lines[..n][i];
    }
  }

  // ------------------------------------------------------------------ tax

  predicate Taxed(line: ExtractionLine) {
    line.taxCode.Some? && line.lineTotal.Some?
  }

  function ExpectedTax(lines: seq<ExtractionLine>): real {
    if lines == [] then 0.0
    else
      var line := lines[|lines| - 1];
      ExpectedTax(lines[..|lines| - 1])
      + if Taxed(line) && TaxRate(line.taxCode.value).Some?
        then line.lineTotal.value * TaxRate(line.taxCode.value).value
        else 0.0
  }

  /** The line totals under one tax code, added up. */
  function NetAt(lines: seq<ExtractionLine>, code: string): real {
    if lines == [] then 0.0
    else
      (if lines[0].taxCode == Some(code) && lines[0].lineTotal.Some? then lines[0].lineTotal.value else 0.0)
      + NetAt(lines[1..], code)
  }

  /** All line totals, added up. */
  function NetOf(lines: seq<ExtractionLine>): real {
    if lines == [] then 0.0
    else (if lines[0].lineTotal.Some? then lines[0].lineTotal.value else 0.0) + NetOf(lines[1..])
  }

  lemma {:induction false} NetOfAppended(lines: seq<ExtractionLine>, last: ExtractionLine, code: string)
    ensures NetAt(lines + [last], code) == NetAt(lines, code) + NetAt([last], code)
    ensures NetOf(lines + [last]) == NetOf(lines) + NetOf([last])
  {
    if lines == [] {
      assert lines + [last] == [last];
    } else {
      assert (lines + [last])[1..] == lines[1..] + [last];
      NetOfAppended(lines[1..], last, code);
    }
  }

  lemma NetOfOne(line: ExtractionLine, code: string)
    ensures NetAt([line], code) == if line.taxCode == Some(code) then OrZero(line.lineTotal) else 0.0
    ensures NetOf([line]) == OrZero(line.lineTotal)
  {
    assert [line][1..] == [];
  }

  /** The expected tax is 19 per cent of what is under S and 7 per cent of what is under R; Z and codes not
      known add nothing. */
  lemma {:induction false} SumsMean(lines: seq<ExtractionLine>)
    ensures ExpectedTax(lines) == 0.19 * NetAt(lines, "S") + 0.07 * NetAt(lines, "R")
    ensures StatedSum(lines) == NetOf(lines)
  {
    if lines != [] {
      var n := |lines| - 1;
      assert lines == lines[..n] + [lines[n]];
      SumsMean(lines[..n]);
      NetOfAppended(lines[..n], lines[n], "S");
      NetOfAppended(lines[..n], lines[n], "R");
      NetOfOne(lines[n], "S");
      NetOfOne(lines[n], "R");
      hide NetAt, NetOf;
    }
  }

  predicate KnownTaxCode(code: string) {
    code == "S" || code == "R" || code == "Z"
  }

  lemma TaxCodesKnown(lines: seq<ExtractionLine>)
    ensures UnknownTaxCode(lines)
       <==> exists i :: 0 <= i < |lines| && lines[i].taxCode.Some? && !KnownTaxCode(lines[i].taxCode.value)
  {}

  predicate NoLineTaxed(lines: seq<ExtractionLine>) {
    forall i :: 0 <= i < |lines| ==> !Taxed(lines[i])
  }

  predicate UnknownTaxCode(lines: seq<ExtractionLine>) {
    exists i :: 0 <= i < |lines| && lines[i].taxCode.Some? && TaxRate(lines[i].taxCode.value).None?
  }

  function CheckTax(x: InvoiceExtraction): Option<CheckResult> {
    if x.totalAmount.None? || x.taxTotal.None? then None
    else if NoLineTaxed(x.lines) then Some(CheckResult(TaxMissingCode, Warn, None, None, None))
    else if UnknownTaxCode(x.lines) then Some(CheckResult(TaxUnknownCode, Warn, None, None, None))
    else
      var delta := x.taxTotal.value - ExpectedTax(x.lines);
      if Abs(delta) > TAX_TOLERANCE then Some(CheckResult(TaxErr, Error, None, None, Some(delta)))
      else None
  }

  // ------------------------------------------------------------------ the report

  function Report(x: InvoiceExtraction): seq<CheckResult> {
    RequiredFieldFindings(x)
    + Listed(CheckCurrency(x))
    + Listed(CheckIban(x.iban))
    + LineMathFindings(x)
    + Listed(CheckTax(x))
  }

  method ValidateExtraction(x: InvoiceExtraction) returns (checks: seq<CheckResult>)
    ensures checks == Report(x)
  {
    var required := CheckRequiredFields(x);
    var arithmetic := CheckLineMath(x);
    checks := required + Listed(CheckCurrency(x)) + Listed(CheckIban(x.iban)) + arithmetic + Listed(CheckTax(x));
  }

  predicate ThreeCapitals(s: string) {
    |s| == 3 && 'A' <= s[0] <= 'Z' && 'A' <= s[1] <= 'Z' && 'A' <= s[2] <= 'Z'
  }

  /** Some line states a total with a tax code, and no line has a code that is not known. */
  predicate TaxCanBeChecked(lines: seq<ExtractionLine>) {
    && (exists i :: 0 <= i < |lines| && lines[i].taxCode.Some? && lines[i].lineTotal.Some?)
    && (forall i :: 0 <= i < |lines| && lines[i].taxCode.Some? ==> KnownTaxCode(lines[i].taxCode.value))
  }

  /** What an extraction must satisfy, said without reference to the checks. */
  predicate Reconciled(x: InvoiceExtraction) {
    && x.vendorName.Some? && x.invoiceNumber.Some? && x.issueDate.Some?
    && x.currency.Some? && ThreeCapitals(x.currency.value)
    && x.totalAmount.Some?
    && (x.iban.Some? && OfKnownCountry(Upper(DropBlanks(x.iban.value))) ==> IsIban(Upper(DropBlanks(x.iban.value))))
    && (forall i :: 0 <= i < |x.lines| && LineComplete(x.lines[i]) ==>
          x.lines[i].lineTotal.value == x.lines[i].qty.value * x.lines[i].unitPrice.value)
    && ((exists i :: 0 <= i < |x.lines| && x.lines[i].lineTotal.Some?) ==> x.totalAmount.value == NetOf(x.lines))
    && (x.taxTotal.Some? && TaxCanBeChecked(x.lines) ==>
          -0.01 <= x.taxTotal.value - (0.19 * NetAt(x.lines, "S") + 0.07 * NetAt(x.lines, "R")) <= 0.01)
  }

  predicate ErrorFree(checks: seq<CheckResult>) {
    forall c :: c in checks ==> c.severity != Error
  }

  lemma ErrorFreeIffNoErrors(checks: seq<CheckResult>)
    ensures ErrorFree(checks) <==> !HasErrors(checks)
  {}

  lemma ErrorFreeConcat(a: seq<CheckResult>, b: seq<CheckResult>)
    ensures ErrorFree(a + b) <==> ErrorFree(a) && ErrorFree(b)
  {
    assert forall c :: c in a + b <==> c in a || c in b;
  }

  predicate IsError(c: Option<CheckResult>) {
    c.Some? && c.value.severity == Error
  }

  lemma ReportErrorFree(x: InvoiceExtraction)
    ensures !HasErrors(Report(x))
       <==> ErrorFree(RequiredFieldFindings(x)) && ErrorFree(LineMathFindings(x)) && !IsError(CheckCurrency(x))
            && !IsError(CheckIban(x.iban)) && !IsError(CheckTax(x))
  {
    hide RequiredFieldFindings, LineMathFindings, CheckCurrency, CheckIban, CheckTax, HasErrors;
    ErrorFreeIffNoErrors(Report(x));
    var a, b, c := RequiredFieldFindings(x), Listed(CheckCurrency(x)), Listed(CheckIban(x.iban));
    var d, e := LineMathFindings(x), Listed(CheckTax(x));
    ErrorFreeConcat(a + b + c + d, e);
    ErrorFreeConcat(a + b + c, d);
    ErrorFreeConcat(a + b, c);
    ErrorFreeConcat(a, b);
    SingleErrorFree(CheckCurrency(x));
    SingleErrorFree(CheckIban(x.iban));
    SingleErrorFree(CheckTax(x));
    hide ErrorFree;
  }

  lemma IbanErrorMeans(x: InvoiceExtraction)
    ensures IsError(CheckIban(x.iban))
       <==> x.iban.Some? && OfKnownCountry(Upper(DropBlanks(x.iban.value)))
            && !IsIban(Upper(DropBlanks(x.iban.value)))
  {
    hide CheckIban, Upper, DropBlanks, IsIban, OfKnownCountry;
    if x.iban.Some? { IbanVerdict(x.iban.value); } else { NoIbanNoError(); }
  }

  lemma NoIbanNoError()
    ensures CheckIban(None) == None
  {}

  /** The hard findings are exactly the failures to reconcile: nothing else stops an invoice here. */
  lemma ValidIffReconciled(x: InvoiceExtraction)
    ensures !HasErrors(Report(x)) <==> Reconciled(x)
  {
    hide RequiredFieldFindings, LineMathFindings, CheckCurrency, CheckIban, CheckTax, HasErrors, Report, ErrorFree,
         ThreeCapitals, IsIban, OfKnownCountry, NetAt, NetOf, StatedSum, ExpectedTax, TaxCanBeChecked, Upper,
         DropBlanks;
    ReportErrorFree(x);
    RequiredErrorFree(x);
    LineMathErrorFree(x);
    SumsMean(x.lines);
    TaxErrorMeans(x);
    CurrencyMeans(x);
    IbanErrorMeans(x);
  }

  lemma CurrencyMeans(x: InvoiceExtraction)
    ensures CheckCurrency(x)
         == if x.currency.None? || ThreeCapitals(x.currency.value) then None
            else Some(CheckResult(SchemaBadCurrency, Error, None, None, None))
  {}

  lemma TaxErrorMeans(x: InvoiceExtraction)
    ensures IsError(CheckTax(x))
       <==> x.totalAmount.Some? && x.taxTotal.Some? && TaxCanBeChecked(x.lines)
            && !(-0.01 <= x.taxTotal.value - ExpectedTax(x.lines) <= 0.01)
  {
    TaxCodesKnown(x.lines);
    TaxableLines(x.lines);
    hide ExpectedTax, UnknownTaxCode, NoLineTaxed, KnownTaxCode;
  }

  lemma TaxableLines(lines: seq<ExtractionLine>)
    ensures NoLineTaxed(lines)
       <==> !exists i :: 0 <= i < |lines| && lines[i].taxCode.Some? && lines[i].lineTotal.Some?
  {}

  lemma SingleErrorFree(c: Option<CheckResult>)
    ensures ErrorFree(Listed(c)) <==> c.None? || c.value.severity != Error
  {
    if c.Some? { assert Listed(c)[0] == c.value; }
  }

  lemma RequiredErrorFree(x: InvoiceExtraction)
    ensures ErrorFree(RequiredFieldFindings(x))
       <==> x.vendorName.Some? && x.invoiceNumber.Some? && x.issueDate.Some?
            && x.currency.Some? && x.totalAmount.Some?
  {
    var hard, soft := MissingAmong(x, REQUIRED_ERROR_FIELDS, Error), MissingAmong(x, REQUIRED_WARN_FIELDS, Warn);
    ErrorFreeConcat(hard, soft);
    MissingAmongMeaning(x, REQUIRED_ERROR_FIELDS, Error);
    MissingAmongMeaning(x, REQUIRED_WARN_FIELDS, Warn);
    if hard != [] { assert hard[0] in hard; }
    assert FieldPresent(x, REQUIRED_ERROR_FIELDS[0]) == x.vendorName.Some?;
    assert FieldPresent(x, REQUIRED_ERROR_FIELDS[1]) == x.invoiceNumber.Some?;
    assert FieldPresent(x, REQUIRED_ERROR_FIELDS[2]) == x.issueDate.Some?;
    assert FieldPresent(x, REQUIRED_ERROR_FIELDS[3]) == x.currency.Some?;
    assert FieldPresent(x, REQUIRED_ERROR_FIELDS[4]) == x.totalAmount.Some?;
  }

  lemma LineMathErrorFree(x: InvoiceExtraction)
    ensures ErrorFree(LineMathFindings(x))
       <==> (forall i :: 0 <= i < |x.lines| && LineComplete(x.lines[i]) ==>
               x.lines[i].lineTotal.value == x.lines[i].qty.value * x.lines[i].unitPrice.value)
            && (x.totalAmount.Some? && AnyLineTotal(x.lines) ==> x.totalAmount.value == StatedSum(x.lines))
  {
    LineFindingsMeaning(x.lines);
    var lines := LineFindings(x.lines);
    var total := if TotalBroken(x)
      then [CheckResult(MathErr, Error, None, None, Some(x.totalAmount.value - StatedSum(x.lines)))] else [];
    ErrorFreeConcat(lines, total);
    if lines != [] { assert lines[0] in lines; }
    if total != [] { assert total[0] in total; }
    forall i | 0 <= i < |x.lines| && LineComplete(x.lines[i])
      ensures LineBroken(x.lines[i])
         <==> x.lines[i].lineTotal.value != x.lines[i].qty.value * x.lines[i].unitPrice.value
    {}
  }
}
