/** Every finding of the validation report traced back to the extraction. */
module ValidationReasons {
  import opened Common
  import opened Extraction
  import opened Validation
  import Text

  predicate Absent(field: Field, x: InvoiceExtraction) {
    match field
    case VendorName => x.vendorName.None?
    case InvoiceNumber => x.invoiceNumber.None?
    case IssueDate => x.issueDate.None?
    case DueDate => x.dueDate.None?
    case Currency => x.currency.None?
    case TotalAmount => x.totalAmount.None?
    case IbanField => x.iban.None?
  }

  /** Every identity field is required; only the due date and the IBAN may be missing with a warning. */
  predicate MissingReason(x: InvoiceExtraction, c: CheckResult) {
    && c.code == SchemaMissingField && c.field.Some? && c.lineNo.None? && c.delta.None?
    && Absent(c.field.value, x)
    && c.severity == if c.field.value == DueDate || c.field.value == IbanField then Warn else Error
  }

  predicate CurrencyReason(x: InvoiceExtraction, c: CheckResult) {
    && c == CheckResult(SchemaBadCurrency, Error, None, None, None)
    && x.currency.Some? && !ThreeCapitals(x.currency.value)
  }

  predicate IbanReason(x: InvoiceExtraction, c: CheckResult) {
    && x.iban.Some?
    && var n := Text.Upper(Text.DropBlanks(x.iban.value));
    || (c == CheckResult(SchemaBadIban, Warn, None, None, None) && !OfKnownCountry(n))
    || (c == CheckResult(SchemaBadIban, Error, None, None, None) && OfKnownCountry(n) && !IsIban(n))
  }

  predicate LineReason(line: ExtractionLine, c: CheckResult) {
    && line.qty.Some? && line.unitPrice.Some? && line.lineTotal.Some?
    && line.lineTotal.value != line.qty.value * line.unitPrice.value
    && c == CheckResult(MathLineErr, Error, None, Some(line.lineNo),
                        Some(line.lineTotal.value - line.qty.value * line.unitPrice.value))
  }

  predicate TotalReason(x: InvoiceExtraction, c: CheckResult) {
    && x.totalAmount.Some? && (exists i :: 0 <= i < |x.lines| && x.lines[i].lineTotal.Some?)
    && x.totalAmount.value != NetOf(x.lines)
    && c == CheckResult(MathErr, Error, None, None, Some(x.totalAmount.value - NetOf(x.lines)))
  }

  /** No line to tax, a code that is not known, or a tax that is off by more than a cent. */
  predicate TaxReason(x: InvoiceExtraction, c: CheckResult) {
    && x.totalAmount.Some? && x.taxTotal.Some?
    && if forall i :: 0 <= i < |x.lines| ==> x.lines[i].taxCode.None? || x.lines[i].lineTotal.None?
       then c == CheckResult(TaxMissingCode, Warn, None, None, None)
       else if exists i :: 0 <= i < |x.lines| && x.lines[i].taxCode.Some? && !KnownTaxCode(x.lines[i].taxCode.value)
       then c == CheckResult(TaxUnknownCode, Warn, None, None, None)
       else
         var off := x.taxTotal.value - (0.19 * NetAt(x.lines, "S") + 0.07 * NetAt(x.lines, "R"));
         (off > 0.01 || off < -0.01) && c == CheckResult(TaxErr, Error, None, None, Some(off))
  }

  lemma {:induction false} MissingMembers(
    x: InvoiceExtraction, fields: seq<Field>, severity: Severity, c: CheckResult)
    ensures c in MissingAmong(x, fields, severity)
       <==> c.field.Some? && c.field.value in fields && Absent(c.field.value, x)
            && c == CheckResult(SchemaMissingField, severity, c.field, None, None)
  {
    if fields != [] {
      var n := |fields| - 1;
      MissingMembers(x, fields[..n], severity, c);
      assert fields == fields[..n] + [fields[n]];
    }
  }

  lemma RequiredMembers(x: InvoiceExtraction, c: CheckResult)
    ensures c in RequiredFieldFindings(x) <==> MissingReason(x, c)
  {
    MissingMembers(x, REQUIRED_ERROR_FIELDS, Error, c);
    MissingMembers(x, REQUIRED_WARN_FIELDS, Warn, c);
    if c.field.Some? { RequiredFieldsAreAll(c.field.value); }
    hide MissingAmong, Absent;
  }

  lemma RequiredFieldsAreAll(field: Field)
    ensures field in REQUIRED_WARN_FIELDS <==> field == DueDate || field == IbanField
    ensures field in REQUIRED_ERROR_FIELDS <==> field != DueDate && field != IbanField
  {
    assert REQUIRED_ERROR_FIELDS[0] == VendorName && REQUIRED_ERROR_FIELDS[1] == InvoiceNumber;
    assert REQUIRED_ERROR_FIELDS[2] == IssueDate && REQUIRED_ERROR_FIELDS[3] == Currency;
    assert REQUIRED_ERROR_FIELDS[4] == TotalAmount;
    assert REQUIRED_WARN_FIELDS[0] == DueDate && REQUIRED_WARN_FIELDS[1] == IbanField;
  }

  lemma {:induction false} LineMembers(lines: seq<ExtractionLine>, c: CheckResult)
    ensures c in LineFindings(lines) <==> exists i :: 0 <= i < |lines| && LineReason(lines[i], c)
  {
    if lines != [] {
      var n := |lines| - 1;
      LineMembers(lines[..n], c);
      assert forall i :: 0 <= i < n ==> lines[..n][i] == lines[i];
      BrokenLine(lines[n], c);
      hide LineReason, LineBroken, LineDelta;
    }
  }

  lemma BrokenLine(line: ExtractionLine, c: CheckResult)
    ensures LineReason(line, c)
       <==> LineBroken(line) && c == CheckResult(MathLineErr, Error, None, Some(line.lineNo), Some(LineDelta(line)))
  {
    if LineComplete(line) {
      var total, expected := line.lineTotal.value, line.qty.value * line.unitPrice.value;
      assert LineDelta(line) == total - expected;
      assert Abs(total - expected) > 0.0 <==> total != expected;
    }
  }

  lemma ArithmeticMembers(x: InvoiceExtraction, c: CheckResult)
    ensures c in LineMathFindings(x)
       <==> (exists i :: 0 <= i < |x.lines| && LineReason(x.lines[i], c)) || TotalReason(x, c)
  {
    LineMembers(x.lines, c);
    SumsMean(x.lines);
    hide LineReason, LineFindings, NetOf, StatedSum;
  }

  lemma TaxMembers(x: InvoiceExtraction, c: CheckResult)
    ensures CheckTax(x) == Some(c) <==> TaxReason(x, c)
  {
    SumsMean(x.lines);
    TaxCodesKnown(x.lines);
    TaxableLines(x.lines);
    hide NetAt, ExpectedTax, UnknownTaxCode, NoLineTaxed, KnownTaxCode;
  }

  lemma HeaderMembers(x: InvoiceExtraction, c: CheckResult)
    ensures CheckCurrency(x) == Some(c) <==> CurrencyReason(x, c)
    ensures CheckIban(x.iban) == Some(c) <==> IbanReason(x, c)
  {
    hide CheckCurrency, CheckIban, ThreeCapitals, IsIban, OfKnownCountry, Text.Upper, Text.DropBlanks;
    CurrencyMeans(x);
    if x.iban.Some? { IbanVerdict(x.iban.value); } else { NoIbanNoError(); }
  }

  lemma ListedMembers(f: Option<CheckResult>, c: CheckResult)
    ensures c in Listed(f) <==> f == Some(c)
  {}

  /** The report holds exactly what the extraction gives reason for, errors and warnings alike. */
  lemma FindingsHaveReasons(x: InvoiceExtraction, c: CheckResult)
    ensures c in Report(x)
       <==> || MissingReason(x, c) || CurrencyReason(x, c) || IbanReason(x, c)
            || (exists i :: 0 <= i < |x.lines| && LineReason(x.lines[i], c)) || TotalReason(x, c)
            || TaxReason(x, c)
  {
    hide RequiredFieldFindings, LineMathFindings, CheckCurrency, CheckIban, CheckTax, MissingReason, CurrencyReason,
         IbanReason, LineReason, TotalReason, TaxReason, Listed;
    RequiredMembers(x, c);
    ArithmeticMembers(x, c);
    TaxMembers(x, c);
    HeaderMembers(x, c);
    ListedMembers(CheckCurrency(x), c);
    ListedMembers(CheckIban(x.iban), c);
    ListedMembers(CheckTax(x), c);
  }
}
