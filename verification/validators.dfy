/**
 * The field checks of the document pipeline's `DataValidator`
 * (`invoice_pipeline/validators.py`). Every check passes an absent or
 * empty field; otherwise it collects problems, and the field is valid
 * exactly when it collected none. Whole-invoice validation gathers the
 * problems of every field, and the financial checks add warnings that
 * never make an invoice invalid. `date.today()` is the parameter `today`,
 * a day number like every date of the model.
 */
module Validators {
  import opened Wrappers
  import opened Text
  import opened Exceptions
  import opened PipelineModels
  import PipelineUtils

  datatype DateField = InvoiceDateField | PeriodStart | PeriodEnd

  /** The errors the checks report, one constructor per message. */
  datatype Problem =
    | NumberTooShort
    | NumberTooLong
    | NumberUnusualCharacters
    | InFuture(field: DateField)
    | TooOld(field: DateField)
    | PeriodReversed
    | UtrLength(got: nat)
    | NiFormat
    | NiPrefix(prefix: string)
    | NiSuffix(suffix: char)
    | EmailFormat
    | PostcodeFormat
    | SortCodeLength(got: nat)
    | AccountNumberLength(got: nat)
    | SubtotalNegative
    | TotalNegative
    | VatNegative

  /** Findings that are reported but never make an invoice invalid. */
  datatype Warning =
    | VatMismatch(expected: real)
    | TotalMismatch(expected: real)
    | TotalLarge

  /** `(is_valid, errors)` */
  datatype Verdict = Verdict(valid: bool, errors: seq<Problem>)

  function Judge(errors: seq<Problem>): Verdict
  {
    Verdict(errors == [], errors)
  }

  /** `[p] if b else []` */
  function When<T>(b: bool, p: T): seq<T>
  {
    if b then [p] else []
  }

  /** Five years, as `timedelta(days=365*5)`. */
  const MaxAgeDays: int := 1825

  /** `[A-Z0-9\-/]` with `re.IGNORECASE` */
  predicate NumberChar(c: char) { IsAlnum(c) || c == '-' || c == '/' }

  /** `DataValidator.validate_invoice_number` */
  function ValidateInvoiceNumber(n: Option<string>): (r: Verdict)
    ensures r.valid <==> r.errors == []
    ensures r.valid <==> !Given(n) || (3 <= |n.value| <= 50 && PipelineUtils.AllWhere(n.value, NumberChar))
    ensures Given(n) && |n.value| < 3 ==> NumberTooShort in r.errors
    ensures Given(n) && |n.value| > 50 ==> NumberTooLong in r.errors
  {
    if !Given(n) then Verdict(true, [])
    else
      var s := n.value;
      Judge(When(|s| < 3, NumberTooShort) + When(|s| > 50, NumberTooLong) +
            When(!PipelineUtils.AllWhere(s, NumberChar), NumberUnusualCharacters))
  }

  /** `DataValidator.validate_date`: neither in the future nor more than five years old. */
  function ValidateDate(d: Option<int>, field: DateField, today: int): (r: Verdict)
    ensures r.valid <==> r.errors == []
    ensures r.valid <==> d.None? || today - MaxAgeDays <= d.value <= today
    ensures d.Some? && d.value > today ==> InFuture(field) in r.errors
  {
    if d.None? then Verdict(true, [])
    else Judge(When(d.value > today, InFuture(field)) + When(d.value < today - MaxAgeDays, TooOld(field)))
  }

  /** `DataValidator.validate_utr`: ten digits once everything else is dropped. */
  function ValidateUtr(u: Option<string>): (r: Verdict)
    ensures r.valid <==> r.errors == []
    ensures r.valid <==> !Given(u) || |Digits(u.value)| == 10
    ensures !r.valid ==> r.errors == [UtrLength(|Digits(u.value)|)]
  {
    if !Given(u) then Verdict(true, [])
    else
      var d := Digits(u.value);
      Judge(When(|d| != 10, UtrLength(|d|)))
  }

  /** For a given UTR the validator and the extraction helper `is_valid_utr` agree. */
  lemma UtrCheckAgrees(u: string)
    requires u != ""
    ensures ValidateUtr(Some(u)).valid <==> PipelineUtils.IsValidUtr(u)
  {
  }

  /** Prefixes that are never issued. */
  function InvalidNiPrefixes(): seq<string>
  {
    [['B', 'G'], ['G', 'B'], ['N', 'K'], ['K', 'N'], ['T', 'N'], ['N', 'T'], ['Z', 'Z']]
  }

  /** `'ABCEHDJMPRSTX'` */
  predicate ValidNiSuffix(c: char)
  {
    c in ['A', 'B', 'C', 'E', 'H', 'D', 'J', 'M', 'P', 'R', 'S', 'T', 'X']
  }

  /** `ni_clean[:2]` */
  function NiPrefixOf(s: string): string
  {
    if |s| < 2 then s else s[..2]
  }

  /** The problems `validate_ni_number` finds before it looks at the last character. */
  function NiShapeProblems(s: string): seq<Problem>
  {
    When(!PipelineUtils.PatternEnd(s, PipelineUtils.NiShape), NiFormat) +
    When(NiPrefixOf(s) in InvalidNiPrefixes(), NiPrefix(NiPrefixOf(s)))
  }

  /**
   * `DataValidator.validate_ni_number` as written: a value made only of
   * spaces is given, but nothing is left of it once the spaces are
   * removed, and `ni_clean[-1]` then raises `IndexError`.
   */
  function ValidateNiNumberAsWritten(ni: Option<string>): (r: Result<Verdict, Exc>)
    ensures r.Err? <==> Given(ni) && Compact(ni.value) == ""
    ensures r.Err? ==> IsInstance(r.error, "IndexError")
  {
    if !Given(ni) then Ok(Verdict(true, []))
    else
      var s := Compact(ni.value);
      if s == [] then Err(Raise("IndexError", "string index out of range"))
      else Ok(Judge(NiShapeProblems(s) + When(!ValidNiSuffix(s[|s| - 1]), NiSuffix(s[|s| - 1]))))
  }

  /** A value of spaces makes the NI validator as written raise instead of reporting a bad format. */
  lemma NiSpacesRaise()
    ensures ValidateNiNumberAsWritten(Some([' '])).Err?
  {
    assert Compact([' ']) == [] by {
      assert Upper([' ']) == [' '];
    }
  }

  /**
   * `validate_ni_number` with the last-character check skipped when
   * nothing is left: an empty number is reported as badly formed. It
   * never raises, and it is valid exactly for the nine-character shape
   * with an issued prefix and suffix.
   */
  function ValidateNiNumber(ni: Option<string>): (r: Verdict)
    ensures r.valid <==> r.errors == []
    ensures r.valid <==> (!Given(ni) ||
      (var s := Compact(ni.value);
       PipelineUtils.PatternEnd(s, PipelineUtils.NiShape) && NiPrefixOf(s) !in InvalidNiPrefixes() &&
       ValidNiSuffix(s[|s| - 1])))
  {
    if !Given(ni) then Verdict(true, [])
    else
      var s := Compact(ni.value);
      if s == [] then Judge([NiFormat])
      else Judge(NiShapeProblems(s) + When(!ValidNiSuffix(s[|s| - 1]), NiSuffix(s[|s| - 1])))
  }

  /** Wherever the NI validator as written returns, the corrected one returns the same. */
  lemma NiCorrectionAgrees(ni: Option<string>)
    requires ValidateNiNumberAsWritten(ni).Ok?
    ensures ValidateNiNumberAsWritten(ni).value == ValidateNiNumber(ni)
  {
  }

  /** `DataValidator.validate_email`: the extraction helper's email pattern. */
  function ValidateEmail(e: Option<string>): (r: Verdict)
    ensures r.valid <==> r.errors == []
    ensures Given(e) ==> (r.valid <==> PipelineUtils.IsValidEmail(e.value))
  {
    if !Given(e) then Verdict(true, [])
    else Judge(When(!PipelineUtils.PatternEnd(e.value, PipelineUtils.EmailShape), EmailFormat))
  }

  /** `DataValidator.validate_postcode`: the spaceless UK shape. */
  function ValidatePostcode(p: Option<string>): (r: Verdict)
    ensures r.valid <==> r.errors == []
    ensures r.valid <==> !Given(p) || PipelineUtils.PatternEnd(Compact(p.value), PipelineUtils.PostcodeTight)
  {
    if !Given(p) then Verdict(true, [])
    else Judge(When(!PipelineUtils.PatternEnd(Compact(p.value), PipelineUtils.PostcodeTight), PostcodeFormat))
  }

  /** A postcode this check accepts is one the extraction helper accepts too. */
  lemma PostcodeCheckImpliesHelper(p: string)
    requires p != "" && ValidatePostcode(Some(p)).valid
    ensures PipelineUtils.IsValidUkPostcode(p)
  {
    PipelineUtils.PostcodeTightIsSpaced(Compact(p));
  }

  /** `DataValidator.validate_sort_code`: six digits. */
  function ValidateSortCode(v: Option<string>): (r: Verdict)
    ensures r.valid <==> r.errors == []
    ensures r.valid <==> !Given(v) || |Digits(v.value)| == 6
  {
    if !Given(v) then Verdict(true, [])
    else
      var d := Digits(v.value);
      Judge(When(|d| != 6, SortCodeLength(|d|)))
  }

  /** `DataValidator.validate_account_number`: six to eight digits. */
  function ValidateAccountNumber(v: Option<string>): (r: Verdict)
    ensures r.valid <==> r.errors == []
    ensures r.valid <==> !Given(v) || 6 <= |Digits(v.value)| <= 8
  {
    if !Given(v) then Verdict(true, [])
    else
      var d := Digits(v.value);
      Judge(When(|d| < 6 || |d| > 8, AccountNumberLength(|d|)))
  }

  /** `financials.vat_rate or Decimal('20')` */
  function EffectiveVatRate(f: Financials): (r: real)
    ensures r != 0.0
  {
    if NonZero(f.vatRate) then f.vatRate.value else DefaultVatRate
  }

  function Abs(x: real): real { if x < 0.0 then -x else x }

  /** The VAT the subtotal calls for at the effective rate. */
  function ExpectedVat(subtotal: real, f: Financials): real
  {
    subtotal * EffectiveVatRate(f) / 100.0
  }

  /** `subtotal + (vat_amount or 0) - (cis_deduction or 0)` */
  function ExpectedTotal(subtotal: real, f: Financials): real
  {
    subtotal + f.vatAmount.GetOr(0.0) - f.cisDeduction.GetOr(0.0)
  }

  /** The differences tolerated as rounding. */
  const Tolerance: real := 0.10

  /** The total above which an amount looks suspicious. */
  const LargeTotal: real := 1000000.0

  predicate Negative(v: Option<real>) { v.Some? && v.value < 0.0 }

  function FinancialWarnings(f: Financials): seq<Warning>
  {
    (if f.subtotal.Some? && f.vatAmount.Some? && Abs(f.vatAmount.value - ExpectedVat(f.subtotal.value, f)) > Tolerance
     then [VatMismatch(ExpectedVat(f.subtotal.value, f))] else []) +
    (if f.subtotal.Some? && f.totalDue.Some? && Abs(f.totalDue.value - ExpectedTotal(f.subtotal.value, f)) > Tolerance
     then [TotalMismatch(ExpectedTotal(f.subtotal.value, f))] else []) +
    When(f.totalDue.Some? && f.totalDue.value > LargeTotal, TotalLarge)
  }

  /**
   * `DataValidator.validate_financials`: negative amounts are errors;
   * a VAT amount or total that does not match the other amounts, or a
   * very large total, is only a warning.
   */
  function ValidateFinancials(fin: Option<Financials>): (r: (Verdict, seq<Warning>))
    ensures r.0.valid <==> r.0.errors == []
    ensures r.0.valid <==> (fin.None? ||
      (!Negative(fin.value.subtotal) && !Negative(fin.value.totalDue) && !Negative(fin.value.vatAmount)))
    ensures fin.Some? && fin.value.subtotal.Some? && fin.value.totalDue.Some? &&
      Abs(fin.value.totalDue.value - ExpectedTotal(fin.value.subtotal.value, fin.value)) > Tolerance
      ==> TotalMismatch(ExpectedTotal(fin.value.subtotal.value, fin.value)) in r.1
    ensures fin.Some? && fin.value.totalDue.Some? && fin.value.totalDue.value > LargeTotal ==> TotalLarge in r.1
    ensures fin.None? ==> r.1 == []
  {
    match fin
    case None => (Verdict(true, []), [])
    case Some(f) =>
      (Judge(When(Negative(f.subtotal), SubtotalNegative) + When(Negative(f.totalDue), TotalNegative) +
             When(Negative(f.vatAmount), VatNegative)),
       FinancialWarnings(f))
  }

  /** The checks of the work period: each date, then their order. */
  function PeriodProblems(p: Option<WorkPeriod>, today: int): (r: seq<Problem>)
    ensures r == [] <==> (p.None? ||
      (ValidateDate(p.value.startDate, PeriodStart, today).valid &&
       ValidateDate(p.value.endDate, PeriodEnd, today).valid &&
       !(p.value.startDate.Some? && p.value.endDate.Some? && p.value.startDate.value > p.value.endDate.value)))
  {
    match p
    case None => []
    case Some(w) =>
      ValidateDate(w.startDate, PeriodStart, today).errors +
      ValidateDate(w.endDate, PeriodEnd, today).errors +
      When(w.startDate.Some? && w.endDate.Some? && w.startDate.value > w.endDate.value, PeriodReversed)
  }

  /** The checks of the contractor: identifiers, email, postcode, bank details. */
  function ContractorProblems(c: Option<Contractor>): (r: seq<Problem>)
    ensures r == [] <==> c.None? || ContractorValid(c.value)
  {
    match c
    case None => []
    case Some(k) =>
      ValidateUtr(k.utr).errors + ValidateNiNumber(k.niNumber).errors + ValidateEmail(k.email).errors +
      (if k.address.Some? && Given(k.address.value.postcode) then ValidatePostcode(k.address.value.postcode).errors else []) +
      (if k.bankDetails.Some?
       then ValidateSortCode(k.bankDetails.value.sortCode).errors +
            ValidateAccountNumber(k.bankDetails.value.accountNumber).errors
       else [])
  }

  /** Every contractor field the validator looks at passes its check. */
  predicate ContractorValid(k: Contractor)
  {
    ValidateUtr(k.utr).valid && ValidateNiNumber(k.niNumber).valid && ValidateEmail(k.email).valid &&
    (k.address.Some? ==> ValidatePostcode(k.address.value.postcode).valid) &&
    (k.bankDetails.Some? ==>
      ValidateSortCode(k.bankDetails.value.sortCode).valid &&
      ValidateAccountNumber(k.bankDetails.value.accountNumber).valid)
  }

  /**
   * `DataValidator.validate_invoice`: the problems of every field in
   * order, and the financial warnings. The invoice is valid exactly when
   * every field check passes; the warnings have no say.
   */
  function ValidateInvoice(inv: InvoiceData, today: int): (r: (Verdict, seq<Warning>))
    ensures r.0.valid <==> r.0.errors == []
    ensures r.0.valid <==>
      ValidateInvoiceNumber(inv.invoiceNumber).valid &&
      ValidateDate(inv.invoiceDate, InvoiceDateField, today).valid &&
      PeriodProblems(inv.workPeriod, today) == [] &&
      (inv.contractor.Some? ==> ContractorValid(inv.contractor.value)) &&
      ValidateFinancials(inv.financials).0.valid
    ensures r.1 == ValidateFinancials(inv.financials).1
  {
    var fin := ValidateFinancials(inv.financials);
    (Judge(ValidateInvoiceNumber(inv.invoiceNumber).errors +
           ValidateDate(inv.invoiceDate, InvoiceDateField, today).errors +
           PeriodProblems(inv.workPeriod, today) +
           ContractorProblems(inv.contractor) +
           fin.0.errors),
     fin.1)
  }

  /**
   * A total that misses subtotal + VAT - CIS by more than the tolerance is
   * only a warning: with no negative amount the financials are valid, and
   * the invoice's validity is decided by its other checks alone.
   */
  lemma TotalMismatchOnlyWarns(inv: InvoiceData, today: int)
    requires inv.financials.Some? && inv.financials.value.subtotal.Some? && inv.financials.value.totalDue.Some?
    requires var f := inv.financials.value;
      !Negative(f.subtotal) && !Negative(f.totalDue) && !Negative(f.vatAmount)
    requires var f := inv.financials.value;
      Abs(f.totalDue.value - ExpectedTotal(f.subtotal.value, f)) > Tolerance
    ensures ValidateFinancials(inv.financials).0.valid
    ensures var f := inv.financials.value;
      TotalMismatch(ExpectedTotal(f.subtotal.value, f)) in ValidateInvoice(inv, today).1
    ensures ValidateInvoice(inv, today).0.valid <==>
      ValidateInvoiceNumber(inv.invoiceNumber).valid &&
      ValidateDate(inv.invoiceDate, InvoiceDateField, today).valid &&
      PeriodProblems(inv.workPeriod, today) == [] &&
      (inv.contractor.Some? ==> ContractorValid(inv.contractor.value))
  {
  }
}
