/**
 * The in-place passes of the document pipeline
 * (`invoice_pipeline/validators.py`): `DataCleaner.clean_invoice`,
 * `DataEnricher` and `validate_and_clean`. The invoice they change is the
 * `data` field of an `InvoiceRecord`; each method states the new record
 * as a function of the old one, and the lemmas say what enrichment
 * promises about those functions.
 */
module Enrichment {
  import opened Wrappers
  import opened PipelineModels
  import opened Validators
  import opened Cleaners

  /** `sum(item.amount or Decimal('0') for item in items)` */
  function ItemTotal(items: seq<WorkItem>): real
  {
    if items == [] then 0.0
    else ItemTotal(items[..|items| - 1]) + items[|items| - 1].amount.GetOr(0.0)
  }

  /** A missing subtotal becomes the sum of the item amounts when there are items and the sum is positive. */
  function WithSubtotal(f: Financials, items: seq<WorkItem>): Financials
  {
    if f.subtotal.None? && items != [] && ItemTotal(items) > 0.0 then f.(subtotal := Some(ItemTotal(items))) else f
  }

  /** A missing VAT amount becomes the subtotal at the effective rate, in whole pence. */
  function WithVat(f: Financials): Financials
  {
    if f.vatAmount.None? && f.subtotal.Some? then
      f.(vatAmount := Some(Quantize(f.subtotal.value * EffectiveVatRate(f) / 100.0)))
    else f
  }

  /** A missing total becomes the subtotal plus VAT less CIS. */
  function WithTotal(f: Financials): Financials
  {
    if f.totalDue.None? && f.subtotal.Some? then
      f.(totalDue := Some(f.subtotal.value + f.vatAmount.GetOr(0.0) - f.cisDeduction.GetOr(0.0)))
    else f
  }

  /** `DataEnricher.calculate_missing_financials` on one summary. */
  function FilledFinancials(f: Financials, items: seq<WorkItem>): Financials
  {
    WithTotal(WithVat(WithSubtotal(f, items)))
  }

  /** The VAT code a VAT amount implies: standard, zero or not applicable. */
  function VatCodeFor(vat: Option<real>): string
  {
    if vat.Some? && vat.value > 0.0 then ['S']
    else if vat.Some? && vat.value == 0.0 then ['Z']
    else ['N']
  }

  /** `DataEnricher.infer_vat_code` on one summary. */
  function WithVatCode(f: Financials): Financials
  {
    if f.vatCode.None? then f.(vatCode := Some(VatCodeFor(f.vatAmount))) else f
  }

  /** `DataEnricher.infer_cis_code` on one summary: a CIS deduction means labour. */
  function WithCisCode(f: Financials): Financials
  {
    if f.cisCode.None? && f.cisDeduction.Some? && f.cisDeduction.value > 0.0 then f.(cisCode := Some(['L'])) else f
  }

  function EnrichedFinancials(f: Financials, items: seq<WorkItem>): Financials
  {
    WithCisCode(WithVatCode(FilledFinancials(f, items)))
  }

  /** `DataEnricher.enrich` on values. */
  function Enriched(inv: InvoiceData): InvoiceData
  {
    if inv.financials.None? then inv
    else inv.(financials := Some(EnrichedFinancials(inv.financials.value, inv.workItems)))
  }

  /** `f` and `g` agree on every field the enricher never writes. */
  predicate SameGiven(f: Financials, g: Financials)
  {
    g.vatRate == f.vatRate && g.cisDeduction == f.cisDeduction && g.currency == f.currency &&
    (f.subtotal.Some? ==> g.subtotal == f.subtotal) &&
    (f.vatAmount.Some? ==> g.vatAmount == f.vatAmount) &&
    (f.totalDue.Some? ==> g.totalDue == f.totalDue) &&
    (f.vatCode.Some? ==> g.vatCode == f.vatCode) &&
    (f.cisCode.Some? ==> g.cisCode == f.cisCode)
  }

  /**
   * Enrichment only fills in what is missing: every field that was
   * present keeps its value, the rest of the invoice is unchanged, and
   * after it every summary has a VAT code.
   */
  lemma EnrichOnlyFills(inv: InvoiceData)
    ensures var e := Enriched(inv);
      e.(financials := inv.financials) == inv &&
      (e.financials.Some? <==> inv.financials.Some?) &&
      (inv.financials.Some? ==> SameGiven(inv.financials.value, e.financials.value) && e.financials.value.vatCode.Some?)
  {
    if inv.financials.Some? {
      FinancialsOnlyFilled(inv.financials.value, inv.workItems);
    }
  }

  /** On one summary, enrichment keeps every given field and leaves a VAT code. */
  lemma FinancialsOnlyFilled(f: Financials, items: seq<WorkItem>)
    ensures SameGiven(f, EnrichedFinancials(f, items)) && EnrichedFinancials(f, items).vatCode.Some?
  {
    var a := WithSubtotal(f, items);
    var b := WithVat(a);
    var c := WithTotal(b);
    var d := WithVatCode(c);
    var e := WithCisCode(d);
    assert SameGiven(f, c) by {
      assert SameGiven(f, a);
      assert SameGiven(a, b);
      assert SameGiven(b, c);
    }
    assert SameGiven(c, e);
  }

  /**
   * A total the enricher fills in is the subtotal plus VAT less CIS, so
   * the financial validator never warns that it mismatches; a VAT amount it
   * fills in is within half a penny of the subtotal at the effective
   * rate, so the financial validator never warns about it either.
   */
  lemma EnrichedTotalsAgree(f: Financials, items: seq<WorkItem>)
    ensures var g := EnrichedFinancials(f, items);
      (f.totalDue.None? && g.subtotal.Some? ==>
        g.totalDue == Some(g.subtotal.value + g.vatAmount.GetOr(0.0) - g.cisDeduction.GetOr(0.0)) &&
        TotalMismatch(ExpectedTotal(g.subtotal.value, g)) !in FinancialWarnings(g)) &&
      (f.vatAmount.None? && g.subtotal.Some? ==>
        g.vatAmount.Some? && Abs(g.vatAmount.value - ExpectedVat(g.subtotal.value, g)) <= 0.005 &&
        VatMismatch(ExpectedVat(g.subtotal.value, g)) !in FinancialWarnings(g))
  {
    var g := EnrichedFinancials(f, items);
    assert EffectiveVatRate(g) == EffectiveVatRate(f);
  }

  /**
   * A VAT code the enricher infers follows the sign of the VAT amount:
   * `S` for a positive amount, `Z` for zero, `N` when there is none or it
   * is negative. A CIS code it infers is `L`, and only for a positive
   * deduction.
   */
  lemma InferredCodes(f: Financials, items: seq<WorkItem>)
    ensures var g := EnrichedFinancials(f, items);
      (f.vatCode.None? ==>
        (g.vatCode == Some(['S']) <==> g.vatAmount.Some? && g.vatAmount.value > 0.0) &&
        (g.vatCode == Some(['Z']) <==> g.vatAmount.Some? && g.vatAmount.value == 0.0) &&
        (g.vatCode == Some(['N']) <==> g.vatAmount.None? || g.vatAmount.value < 0.0)) &&
      (f.cisCode.None? ==>
        (g.cisCode.Some? <==> f.cisDeduction.Some? && f.cisDeduction.value > 0.0) &&
        (g.cisCode.Some? ==> g.cisCode == Some(['L'])))
  {
  }

  /** Enriching an enriched invoice changes nothing. */
  lemma EnrichIdempotent(inv: InvoiceData)
    ensures Enriched(Enriched(inv)) == Enriched(inv)
  {
    if inv.financials.Some? {
      var f := inv.financials.value;
      var g := EnrichedFinancials(f, inv.workItems);
      assert EffectiveVatRate(g) == EffectiveVatRate(f);
      assert FilledFinancials(g, inv.workItems) == g;
    }
  }

  /** The item total, added up in a loop as `sum()` does. */
  method SumAmounts(items: seq<WorkItem>) returns (total: real)
    ensures total == ItemTotal(items)
  {
    total := 0.0;
    var i := 0;
    while i < |items|
      invariant 0 <= i <= |items|
      invariant total == ItemTotal(items[..i])
    {
      assert items[..i + 1][..i] == items[..i];
      total := total + items[i].amount.GetOr(0.0);
      i := i + 1;
    }
    assert items[..|items|] == items;
  }

  /** The subtotal step of `calculate_missing_financials`. */
  method FillSubtotal(f: Financials, items: seq<WorkItem>) returns (g: Financials)
    ensures g == WithSubtotal(f, items)
  {
    g := f;
    if g.subtotal.None? && |items| > 0 {
      var total := SumAmounts(items);
      if total > 0.0 {
        g := g.(subtotal := Some(total));
      }
    }
  }

  /** The VAT step of `calculate_missing_financials`. */
  method FillVat(f: Financials) returns (g: Financials)
    ensures g == WithVat(f)
  {
    g := f;
    if g.vatAmount.None? && g.subtotal.Some? {
      var vat := Quantize(g.subtotal.value * EffectiveVatRate(g) / 100.0);
      assert f.vatAmount.None? && f.subtotal.Some?;
      assert vat == Quantize(f.subtotal.value * EffectiveVatRate(f) / 100.0);
      assert WithVat(f).vatAmount == Some(vat);
      g := g.(vatAmount := Some(vat));
    }
  }

  /** The total step of `calculate_missing_financials`. */
  method FillTotal(f: Financials) returns (g: Financials)
    ensures g == WithTotal(f)
  {
    g := f;
    if g.totalDue.None? && g.subtotal.Some? {
      g := g.(totalDue := Some(g.subtotal.value + g.vatAmount.GetOr(0.0) - g.cisDeduction.GetOr(0.0)));
    }
  }

  /** An invoice record whose fields the pipeline's passes update in place. */
  class InvoiceRecord {
    var data: InvoiceData

    constructor (inv: InvoiceData)
      ensures data == inv
    {
      data := inv;
    }

    /** `DataCleaner.clean_invoice` */
    method CleanInvoice()
      modifies this
      ensures data == CleanedInvoice(old(data))
    {
      var inv := data;
      data := data.(invoiceNumber := CleanInvoiceNumber(data.invoiceNumber));
      if data.contractor.Some? {
        data := data.(contractor := Some(CleanedContractor(data.contractor.value)));
      }
      if data.financials.Some? {
        data := data.(financials := Some(CleanedFinancials(data.financials.value)));
      }
      var items := data.workItems;
      var i := 0;
      while i < |items|
        invariant 0 <= i <= |items| == |inv.workItems|
        invariant forall j :: 0 <= j < i ==> items[j] == CleanedItem(inv.workItems[j])
        invariant forall j :: i <= j < |items| ==> items[j] == inv.workItems[j]
      {
        items := items[i := CleanedItem(items[i])];
        i := i + 1;
      }
      assert items == CleanedInvoice(inv).workItems;
      data := data.(workItems := items);
    }

    /** `DataEnricher.calculate_missing_financials` */
    method CalculateMissingFinancials()
      modifies this
      ensures old(data).financials.None? ==> data == old(data)
      ensures old(data).financials.Some? ==>
        data == old(data).(financials := Some(FilledFinancials(old(data).financials.value, old(data).workItems)))
    {
      if data.financials.None? {
        return;
      }
      var fin := data.financials.value;
      fin := FillSubtotal(fin, data.workItems);
      fin := FillVat(fin);
      fin := FillTotal(fin);
      data := data.(financials := Some(fin));
    }

    /** `DataEnricher.infer_vat_code` */
    method InferVatCode()
      modifies this
      ensures old(data).financials.None? ==> data == old(data)
      ensures old(data).financials.Some? ==>
        data == old(data).(financials := Some(WithVatCode(old(data).financials.value)))
    {
      if data.financials.None? {
        return;
      }
      var fin := data.financials.value;
      if fin.vatCode.None? {
        if fin.vatAmount.Some? && fin.vatAmount.value > 0.0 {
          fin := fin.(vatCode := Some(['S']));
        } else if fin.vatAmount.Some? && fin.vatAmount.value == 0.0 {
          fin := fin.(vatCode := Some(['Z']));
        } else {
          fin := fin.(vatCode := Some(['N']));
        }
      }
      data := data.(financials := Some(fin));
    }

    /** `DataEnricher.infer_cis_code` */
    method InferCisCode()
      modifies this
      ensures old(data).financials.None? ==> data == old(data)
      ensures old(data).financials.Some? ==>
        data == old(data).(financials := Some(WithCisCode(old(data).financials.value)))
    {
      if data.financials.None? {
        return;
      }
      var fin := data.financials.value;
      if fin.cisCode.None? && fin.cisDeduction.Some? && fin.cisDeduction.value > 0.0 {
        fin := fin.(cisCode := Some(['L']));
      }
      data := data.(financials := Some(fin));
    }

    /** `DataEnricher.enrich` */
    method Enrich()
      modifies this
      ensures data == Enriched(old(data))
    {
      CalculateMissingFinancials();
      InferVatCode();
      InferCisCode();
    }

    /**
     * `validate_and_clean`: cleaning, then validation of the cleaned
     * invoice, then enrichment, each when asked for. The errors and
     * warnings are those of validating the invoice as it stood between
     * cleaning and enrichment.
     */
    method ValidateAndClean(doClean: bool, doValidate: bool, doEnrich: bool, today: int)
      returns (errors: seq<Problem>, warnings: seq<Warning>)
      modifies this
      ensures var cleaned := if doClean then CleanedInvoice(old(data)) else old(data);
        data == (if doEnrich then Enriched(cleaned) else cleaned) &&
        (doValidate ==> errors == ValidateInvoice(cleaned, today).0.errors &&
                        warnings == ValidateInvoice(cleaned, today).1) &&
        (!doValidate ==> errors == [] && warnings == [])
    {
      errors, warnings := [], [];
      if doClean {
        CleanInvoice();
      }
      ghost var cleaned := data;
      if doValidate {
        var verdict := ValidateInvoice(data, today);
        errors, warnings := verdict.0.errors, verdict.1;
      }
      if doEnrich {
        Enrich();
      }
      assert data == if doEnrich then Enriched(cleaned) else cleaned;
    }
  }

  /**
   * With cleaning on, validation never meets the National Insurance
   * number that makes the NI validator as written raise, and every amount it
   * sees is in whole pence.
   */
  lemma CleanedBeforeValidation(inv: InvoiceData)
    ensures var c := CleanedInvoice(inv);
      (c.contractor.Some? ==> ValidateNiNumberAsWritten(c.contractor.value.niNumber).Ok?) &&
      (c.financials.Some? ==> FinancialsInCents(c.financials.value))
  {
    CleanedInvoiceSpec(inv);
  }
}
