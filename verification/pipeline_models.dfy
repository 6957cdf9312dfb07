/**
 * The extracted-invoice schema of the document pipeline
 * (`invoice_pipeline/models.py`): addresses, bank details, the
 * contractor, work items, the work period, the financial summary and the
 * invoice itself, with the normalisers the schema applies to fields when
 * a record is built, the minimum-data check and the completeness score.
 *
 * `Optional[str]` is `Option<string>`; a `Decimal` is an exact `real`;
 * a `date` is its day number. Python truthiness is written out: a string
 * counts when present and non-empty (`Given`), a `Decimal` when present
 * and non-zero (`NonZero`), a date or a nested record whenever present.
 */
module PipelineModels {
  import opened Wrappers
  import opened Text

  datatype Address = Address(
    street: Option<string>,
    city: Option<string>,
    postcode: Option<string>,
    country: Option<string>)

  datatype BankDetails = BankDetails(
    accountName: Option<string>,
    accountNumber: Option<string>,
    sortCode: Option<string>,
    iban: Option<string>,
    swift: Option<string>)

  datatype Contractor = Contractor(
    name: Option<string>,
    address: Option<Address>,
    email: Option<string>,
    phone: Option<string>,
    utr: Option<string>,
    niNumber: Option<string>,
    vatNumber: Option<string>,
    companyNumber: Option<string>,
    bankDetails: Option<BankDetails>)

  datatype WorkItem = WorkItem(
    propertyAddress: Option<string>,
    plotNumber: Option<string>,
    description: Option<string>,
    quantity: Option<real>,
    unitPrice: Option<real>,
    amount: Option<real>,
    operativeNames: seq<string>)

  datatype WorkPeriod = WorkPeriod(startDate: Option<int>, endDate: Option<int>)

  datatype Financials = Financials(
    subtotal: Option<real>,
    vatAmount: Option<real>,
    vatCode: Option<string>,
    vatRate: Option<real>,
    cisDeduction: Option<real>,
    cisCode: Option<string>,
    totalDue: Option<real>,
    currency: string)

  datatype InvoiceData = InvoiceData(
    sourceFile: Option<string>,
    extractionMethod: Option<string>,
    extractionConfidence: real,
    invoiceNumber: Option<string>,
    invoiceDate: Option<int>,
    contractor: Option<Contractor>,
    clientName: Option<string>,
    clientAddress: Option<Address>,
    workPeriod: Option<WorkPeriod>,
    workItems: seq<WorkItem>,
    financials: Option<Financials>,
    rawText: Option<string>,
    processingErrors: seq<string>,
    warnings: seq<string>)

  /** The VAT rate a financial summary gets when none is given. */
  const DefaultVatRate: real := 20.0

  /** `if v:` on an `Optional[str]` */
  predicate Given(v: Option<string>) { v.Some? && v.value != "" }

  /** `if v:` on an `Optional[Decimal]` */
  predicate NonZero(v: Option<real>) { v.Some? && v.value != 0.0 }

  // ---------------------------------------------------------------------
  // Field normalisers
  // ---------------------------------------------------------------------

  /** `v.upper().strip()` */
  function UpperStripped(v: string): (r: string)
    ensures NoLower(r) && Strip(r) == r
    ensures |r| <= |v|
  {
    var u := Upper(v);
    StripNoLower(u);
    StripTwice(u);
    Strip(u)
  }

  lemma StripTwice(s: string)
    ensures Strip(Strip(s)) == Strip(s)
  {
    StripFixed(Strip(s));
  }

  /** Normalising twice is normalising once. */
  lemma UpperStrippedIdempotent(v: string)
    ensures UpperStripped(UpperStripped(v)) == UpperStripped(v)
  {
    var r := UpperStripped(v);
    UpperFixed(r);
  }

  /**
   * `Address.validate_postcode`, and the `vat_code`/`cis_code`
   * normalisers of `Financials`: a given value is upper-cased and
   * stripped. The pattern test and the code tables decide nothing, since
   * both of their branches return the normalised value.
   */
  function NormalizeUpper(v: Option<string>): (r: Option<string>)
    ensures !Given(v) ==> r == v
    ensures Given(v) ==> r.Some? && NoLower(r.value) && Strip(r.value) == r.value
  {
    if Given(v) then Some(UpperStripped(v.value)) else v
  }

  lemma NormalizeUpperIdempotent(v: Option<string>)
    ensures NormalizeUpper(NormalizeUpper(v)) == NormalizeUpper(v)
  {
    if Given(v) {
      UpperStrippedIdempotent(v.value);
    }
  }

  /** `XX-XX-XX`: two digits, a dash, two digits, a dash, two digits. */
  predicate SortCodeShape(s: string)
  {
    |s| == 8 && s[2] == '-' && s[5] == '-' &&
    IsDigit(s[0]) && IsDigit(s[1]) && IsDigit(s[3]) && IsDigit(s[4]) && IsDigit(s[6]) && IsDigit(s[7])
  }

  /**
   * The digits of a sort code, grouped as `XX-XX-XX` when there are six
   * of them and left bare otherwise.
   */
  function FormatSortCode(v: string): (r: string)
    ensures Digits(r) == Digits(v)
    ensures |Digits(v)| == 6 ==> SortCodeShape(r)
    ensures |Digits(v)| != 6 ==> AllDigits(r)
  {
    var d := Digits(v);
    if |d| == 6 then
      var r := d[..2] + ['-'] + d[2..4] + ['-'] + d[4..];
      assert Digits(r) == d by {
        GroupDigits(d[..2], d[2..4], d[4..]);
        assert d[..2] + d[2..4] + d[4..] == d;
      }
      r
    else d
  }

  lemma GroupDigits(a: string, b: string, c: string)
    requires AllDigits(a) && AllDigits(b) && AllDigits(c)
    ensures Digits(a + ['-'] + b + ['-'] + c) == a + b + c
  {
    DigitsDash(a + ['-'] + b, c);
    DigitsDash(a, b);
  }

  lemma DigitsDash(x: string, y: string)
    ensures Digits(x + ['-'] + y) == Digits(x) + Digits(y)
  {
    assert x + ['-'] + y == x + (['-'] + y);
    DigitsAppend(x, ['-'] + y);
    assert (['-'] + y)[1..] == y;
  }

  /** Formatting a formatted sort code changes nothing. */
  lemma FormatSortCodeIdempotent(v: string)
    ensures FormatSortCode(FormatSortCode(v)) == FormatSortCode(v)
  {
  }

  /** `BankDetails.validate_sort_code` */
  function NormalizeSortCode(v: Option<string>): (r: Option<string>)
    ensures !Given(v) ==> r == v
    ensures Given(v) ==> r.Some? && Digits(r.value) == Digits(v.value)
    ensures Given(v) && |Digits(v.value)| == 6 ==> SortCodeShape(r.value)
  {
    if Given(v) then Some(FormatSortCode(v.value)) else v
  }

  /**
   * `BankDetails.validate_account_number` and `Contractor.validate_utr`:
   * a given value is reduced to its digits, whatever their number, since
   * the length test returns the digits on both branches.
   */
  function NormalizeDigits(v: Option<string>): (r: Option<string>)
    ensures !Given(v) ==> r == v
    ensures Given(v) ==> r.Some? && AllDigits(r.value) && |r.value| <= |v.value|
    ensures Given(v) && AllDigits(v.value) ==> r == v
  {
    if Given(v) then Some(Digits(v.value)) else v
  }

  lemma NormalizeDigitsIdempotent(v: Option<string>)
    ensures NormalizeDigits(NormalizeDigits(v)) == NormalizeDigits(v)
  {
  }

  /** `v.upper().replace(' ', '')` */
  function Compact(v: string): (r: string)
    ensures NoLower(r) && ' ' !in r && |r| <= |v|
  {
    RemoveNoLower(Upper(v), ' ');
    Remove(Upper(v), ' ')
  }

  /** `Contractor.validate_ni`: upper-cased with the spaces removed. */
  function NormalizeNi(v: Option<string>): (r: Option<string>)
    ensures !Given(v) ==> r == v
    ensures Given(v) ==> r.Some? && NoLower(r.value) && ' ' !in r.value
  {
    if Given(v) then Some(Compact(v.value)) else v
  }

  /** `Contractor.validate_email`: lower-cased and stripped. */
  function NormalizeEmail(v: Option<string>): (r: Option<string>)
    ensures !Given(v) ==> r == v
    ensures Given(v) ==> r.Some? && NoUpper(r.value) && Strip(r.value) == r.value && |r.value| <= |v.value|
  {
    if Given(v) then
      assert NoUpper(Lower(v.value));
      StripNoUpper(Lower(v.value));
      StripTwice(Lower(v.value));
      Some(Strip(Lower(v.value)))
    else v
  }

  // ---------------------------------------------------------------------
  // Whole-invoice checks
  // ---------------------------------------------------------------------

  /** `InvoiceData.is_valid`: enough data to be worth keeping. */
  predicate IsValid(inv: InvoiceData)
    ensures IsValid(inv) ==> inv.invoiceNumber.Some? || (inv.contractor.Some? && inv.financials.Some?)
    ensures inv.invoiceNumber.Some? ==> IsValid(inv)
  {
    inv.invoiceNumber.Some? ||
    (inv.contractor.Some? && inv.contractor.value.name.Some? &&
     inv.financials.Some? && (inv.financials.value.subtotal.Some? || inv.financials.value.totalDue.Some?))
  }

  function Point(present: bool, w: real): real { if present then w else 0.0 }

  /** The invoice-basics part of `completeness_score`, out of 2. */
  function BasicsScore(inv: InvoiceData): (r: real)
    ensures 0.0 <= r <= 2.0
    ensures r == 2.0 ==> Given(inv.invoiceNumber)
  {
    Point(Given(inv.invoiceNumber), 1.0) + Point(inv.invoiceDate.Some?, 1.0)
  }

  /** The contractor part, out of 2. */
  function ContractorScore(c: Contractor): (r: real)
    ensures 0.0 <= r <= 2.0
    ensures r == 2.0 ==> Given(c.name)
  {
    Point(Given(c.name), 1.0) +
    Point(c.address.Some? && Given(c.address.value.street), 0.5) +
    Point(Given(c.utr), 0.5)
  }

  /** The work-items part, out of 2: half a point per item. */
  function ItemsScore(n: nat): (r: real)
    ensures 0.0 <= r <= 2.0
    ensures n >= 4 ==> r == 2.0
  {
    if n as real * 0.5 < 2.0 then n as real * 0.5 else 2.0
  }

  /** The financials part, out of 2.5. */
  function FinancialsScore(f: Financials): (r: real)
    ensures 0.0 <= r <= 2.5
    ensures r == 2.5 ==> NonZero(f.subtotal) && NonZero(f.totalDue)
  {
    Point(NonZero(f.subtotal), 1.0) + Point(f.vatAmount.Some?, 0.5) + Point(NonZero(f.totalDue), 1.0)
  }

  /** The points a section can earn, summed over the sections present. */
  function TotalFields(inv: InvoiceData): (t: real)
    ensures t >= 2.0
  {
    2.0 + Point(inv.contractor.Some?, 2.0) + Point(inv.workItems != [], 2.0) + Point(inv.financials.Some?, 2.5)
  }

  /** The points earned, section by section. */
  function EarnedScore(inv: InvoiceData): (s: real)
    ensures 0.0 <= s <= TotalFields(inv)
  {
    BasicsScore(inv) +
    (if inv.contractor.Some? then ContractorScore(inv.contractor.value) else 0.0) +
    (if inv.workItems != [] then ItemsScore(|inv.workItems|) else 0.0) +
    (if inv.financials.Some? then FinancialsScore(inv.financials.value) else 0.0)
  }

  /**
   * `InvoiceData.completeness_score`: the points earned over the points
   * available in the sections present. The score is a fraction: it lies
   * between 0 and 1 because no section earns more than its weight.
   */
  function CompletenessScore(inv: InvoiceData): (r: real)
    ensures 0.0 <= r <= 1.0
    ensures r == 1.0 <==> EarnedScore(inv) == TotalFields(inv)
  {
    var t := TotalFields(inv);
    var s := EarnedScore(inv);
    FractionBounds(s, t);
    s / t
  }

  lemma FractionBounds(s: real, t: real)
    requires t > 0.0 && 0.0 <= s <= t
    ensures 0.0 <= s / t <= 1.0
    ensures s / t == 1.0 <==> s == t
  {
    var q := s / t;
    assert q * t == s;
    assert (1.0 - q) * t == t - s;
  }

  /**
   * A full score needs the invoice number, so a complete invoice is
   * always a valid one.
   */
  lemma FullScoreIsValid(inv: InvoiceData)
    requires CompletenessScore(inv) == 1.0
    ensures IsValid(inv)
    ensures Given(inv.invoiceNumber) && inv.invoiceDate.Some?
  {
    assert BasicsScore(inv) == 2.0;
  }

  /**
   * A present but empty contractor section lowers the score: it adds two
   * points to the total and none to the points earned.
   */
  lemma EmptyContractorLowersScore(inv: InvoiceData, c: Contractor)
    requires inv.contractor.None? && EarnedScore(inv) > 0.0
    requires !Given(c.name) && !Given(c.utr) && c.address.None?
    ensures CompletenessScore(inv.(contractor := Some(c))) < CompletenessScore(inv)
  {
    var t := TotalFields(inv);
    var s := EarnedScore(inv);
    var after := inv.(contractor := Some(c));
    assert TotalFields(after) == t + 2.0 && EarnedScore(after) == s;
    DivideByMore(s, t, t + 2.0);
  }

  lemma DivideByMore(s: real, t: real, u: real)
    requires 0.0 < s && 0.0 < t < u
    ensures s / u < s / t
  {
    var a, b := s / t, s / u;
    assert a * t == s && b * u == s;
    assert b * t < b * u;
  }
}
