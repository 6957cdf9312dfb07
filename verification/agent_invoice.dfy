/**
 * The chat bot's invoice model (invoice_agent_bot/src/models/invoice.py):
 * line items with their computed amount, the customer e-mail and currency
 * normalisers, and an invoice whose totals follow its items as they are
 * added and removed.
 */
module AgentInvoice {
  import opened Wrappers
  import opened Text
  import opened Sequences

  /** A keyword argument of a model constructor: left out (the default applies) or passed. */
  datatype Arg<T> = Omitted | Passed(value: T)

  /** `InvoiceItem` */
  datatype Item = Item(
    id: string,
    description: string,
    quantity: real,
    unitPrice: real,
    amount: Option<real>,
    taxRate: Option<real>)

  const ValidationError: string := "ValidationError"

  /** The field constraints `InvoiceItem` declares. */
  predicate ItemFieldsValid(description: string, quantity: real, unitPrice: real, taxRate: Option<real>)
  {
    && 1 <= |description| <= 500
    && quantity >= 0.0
    && unitPrice >= 0.0
    && (taxRate.Some? ==> 0.0 <= taxRate.value <= 100.0)
  }

  /** The quantity an item gets: the one passed, or 1. */
  function QuantityOf(quantity: Arg<real>): real
  {
    match quantity
    case Omitted => 1.0
    case Passed(q) => q
  }

  /**
   * `InvoiceItem(...)` as written: the `calculate_amount` validator runs in
   * "before" mode, and the validation library runs such validators only on
   * values that are passed, not on defaults. So the amount is computed only
   * when `amount=None` is passed explicitly; left out, it stays None.
   */
  function NewItemAsWritten(id: string, description: string, quantity: Arg<real>, unitPrice: real,
                            amount: Arg<Option<real>>, taxRate: Option<real>): (r: Result<Item, string>)
    ensures r.Ok? <==> ItemFieldsValid(description, QuantityOf(quantity), unitPrice, taxRate)
    ensures r.Ok? && amount.Omitted? ==> r.value.amount == None
  {
    var q := QuantityOf(quantity);
    if !ItemFieldsValid(description, q, unitPrice, taxRate) then Err(ValidationError)
    else
      var a := match amount
        case Omitted => None
        case Passed(None) => Some(q * unitPrice)
        case Passed(Some(v)) => Some(v);
      Ok(Item(id, description, q, unitPrice, a, taxRate))
  }

  /**
   * `InvoiceItem(...)` as intended: an amount that is not given, whether left
   * out or passed as None, is quantity times unit price.
   */
  function NewItem(id: string, description: string, quantity: Arg<real>, unitPrice: real,
                   amount: Arg<Option<real>>, taxRate: Option<real>): (r: Result<Item, string>)
    ensures r.Ok? <==> ItemFieldsValid(description, QuantityOf(quantity), unitPrice, taxRate)
    ensures r.Ok? ==> r.value.amount.Some?
    ensures r.Ok? ==> r.value.quantity == QuantityOf(quantity) && r.value.unitPrice == unitPrice
    ensures r.Ok? && (amount.Omitted? || amount == Passed(None)) ==>
      r.value.amount == Some(QuantityOf(quantity) * unitPrice) && r.value.amount.value >= 0.0
    ensures r.Ok? && amount.Passed? && amount.value.Some? ==> r.value.amount == amount.value
  {
    var q := QuantityOf(quantity);
    if !ItemFieldsValid(description, q, unitPrice, taxRate) then Err(ValidationError)
    else
      var a := if amount.Passed? && amount.value.Some? then amount.value.value else q * unitPrice;
      assert q * unitPrice >= 0.0 by {
        NonNegativeProduct(q, unitPrice);
      }
      Ok(Item(id, description, q, unitPrice, Some(a), taxRate))
  }

  lemma NonNegativeProduct(x: real, y: real)
    requires x >= 0.0 && y >= 0.0
    ensures x * y >= 0.0
  {
  }

  // ---------------------------------------------------------------------------
  // Field normalisers
  // ---------------------------------------------------------------------------

  /**
   * `CustomerInfo.validate_email`: a non-empty address without '@' is
   * rejected; an accepted one is lower-cased. The 255-character limit is
   * checked before it.
   */
  function ValidateEmail(v: Option<string>): (r: Result<Option<string>, string>)
    ensures (r.Err?) <==> (v.Some? && (|v.value| > 255 || (v.value != "" && '@' !in v.value)))
    ensures r.Ok? ==> (r.value.None? <==> v.None?)
    ensures r.Ok? && r.value.Some? ==> r.value.value == Lower(v.value)
    ensures r.Ok? && r.value.Some? ==> NoUpper(r.value.value) && |r.value.value| == |v.value|
    ensures r.Ok? && r.value.Some? && r.value.value != "" ==> '@' in r.value.value
  {
    match v
    case None => Ok(None)
    case Some(e) =>
      if |e| > 255 then Err(ValidationError)
      else if e != "" && '@' !in e then Err("Invalid email address")
      else
        var l := Lower(e);
        assert e != "" ==> l[AtIndex(e)] == '@';
        Ok(Some(l))
  }

  /** The position of some '@' in `e`. */
  function AtIndex(e: string): (k: nat)
    requires '@' in e
    ensures k < |e| && e[k] == '@'
  {
    if e[0] == '@' then 0 else 1 + AtIndex(e[1..])
  }

  /** An accepted e-mail address passes validation again unchanged. */
  lemma ValidateEmailIdempotent(v: Option<string>)
    requires ValidateEmail(v).Ok?
    ensures ValidateEmail(ValidateEmail(v).value) == ValidateEmail(v)
  {
    var w := ValidateEmail(v).value;
    if w.Some? {
      LowerFixed(w.value);
    }
  }

  /**
   * `InvoiceData.normalize_currency`: a three-character code (the field's
   * length limits are checked first) is upper-cased.
   */
  function NormalizeCurrency(v: string): (r: Result<string, string>)
    ensures r.Err? <==> |v| != 3
    ensures r.Ok? ==> |r.value| == 3 && NoLower(r.value)
    ensures r.Ok? ==> Lower(r.value) == Lower(v)
  {
    if |v| != 3 then Err(ValidationError)
    else
      var u := Upper(v);
      assert forall i :: 0 <= i < 3 ==> LowerChar(u[i]) == LowerChar(v[i]);
      Ok(u)
  }

  /** A normalised currency code normalises to itself. */
  lemma NormalizeCurrencyIdempotent(v: string)
    requires NormalizeCurrency(v).Ok?
    ensures NormalizeCurrency(NormalizeCurrency(v).value) == NormalizeCurrency(v)
  {
    UpperFixed(NormalizeCurrency(v).value);
  }

  // ---------------------------------------------------------------------------
  // Totals
  // ---------------------------------------------------------------------------

  /** `item.amount or Decimal("0")` */
  function Amount(it: Item): real
  {
    it.amount.GetOr(0.0)
  }

  /** An item's tax: only when both its rate and its amount are given and non-zero. */
  function ItemTax(it: Item): real
  {
    if it.taxRate.Some? && it.taxRate.value != 0.0 && it.amount.Some? && it.amount.value != 0.0
    then it.amount.value * (it.taxRate.value / 100.0)
    else 0.0
  }

  function Subtotal(items: seq<Item>): real
  {
    if items == [] then 0.0 else Subtotal(items[..|items| - 1]) + Amount(items[|items| - 1])
  }

  function TaxTotal(items: seq<Item>): real
  {
    if items == [] then 0.0 else TaxTotal(items[..|items| - 1]) + ItemTax(items[|items| - 1])
  }

  /** The totals of a list of items split over any concatenation. */
  lemma {:induction false} TotalsConcat(a: seq<Item>, b: seq<Item>)
    ensures Subtotal(a + b) == Subtotal(a) + Subtotal(b)
    ensures TaxTotal(a + b) == TaxTotal(a) + TaxTotal(b)
    decreases |b|
  {
    if b == [] {
      assert a + b == a;
    } else {
      var init := b[..|b| - 1];
      assert (a + b)[..|a + b| - 1] == a + init;
      TotalsConcat(a, init);
    }
  }

  /** Removing the item at `k` takes exactly its amount and its tax off the totals. */
  lemma RemoveLowersTotals(items: seq<Item>, k: nat)
    requires k < |items|
    ensures Subtotal(items[..k] + items[k + 1..]) == Subtotal(items) - Amount(items[k])
    ensures TaxTotal(items[..k] + items[k + 1..]) == TaxTotal(items) - ItemTax(items[k])
  {
    var p, x, q := items[..k], items[k], items[k + 1..];
    SplitAt(items, k);
    TotalsSplice(p, x, q);
  }

  /** The totals of `p + [x] + q`: those of `p + q` and the item's own. */
  lemma TotalsSplice(p: seq<Item>, x: Item, q: seq<Item>)
    ensures Subtotal(p + ([x] + q)) == Subtotal(p + q) + Amount(x)
    ensures TaxTotal(p + ([x] + q)) == TaxTotal(p + q) + ItemTax(x)
  {
    TotalsConcat(p, q);
    TotalsConcat(p, [x] + q);
    TotalsConcat([x], q);
    assert Subtotal([x]) == Amount(x) && TaxTotal([x]) == ItemTax(x) by {
      assert [x][..0] == [];
    }
  }

  /** Items whose amounts and rates lie in the declared ranges. */
  predicate InRange(items: seq<Item>)
  {
    forall k :: 0 <= k < |items| ==>
      Amount(items[k]) >= 0.0 && (items[k].taxRate.Some? ==> 0.0 <= items[k].taxRate.value <= 100.0)
  }

  /** With rates of at most 100%, the tax is never negative and never more than the subtotal. */
  lemma {:induction false} TaxBounded(items: seq<Item>)
    requires InRange(items)
    ensures 0.0 <= TaxTotal(items) <= Subtotal(items)
  {
    if items != [] {
      var init := items[..|items| - 1];
      assert InRange(init) by {
        assert forall k :: 0 <= k < |init| ==> init[k] == items[k];
      }
      TaxBounded(init);
      ItemTaxBounded(items[|items| - 1]);
    }
  }

  lemma ItemTaxBounded(it: Item)
    requires Amount(it) >= 0.0 && (it.taxRate.Some? ==> 0.0 <= it.taxRate.value <= 100.0)
    ensures 0.0 <= ItemTax(it) <= Amount(it)
  {
    if it.taxRate.Some? && it.amount.Some? {
      var a := it.amount.value;
      var f := it.taxRate.value / 100.0;
      assert 0.0 <= f <= 1.0;
      assert a * f <= a * 1.0;
    }
  }

  /** The index of the first item with `id`, if any. */
  function FirstWithId(items: seq<Item>, id: string): (k: Option<nat>)
    ensures k.Some? ==> (k.value < |items| && items[k.value].id == id
      && forall j :: 0 <= j < k.value ==> items[j].id != id)
    ensures k.None? ==> forall j :: 0 <= j < |items| ==> items[j].id != id
  {
    if items == [] then None
    else if items[0].id == id then Some(0)
    else
      var r := FirstWithId(items[1..], id);
      if r.None? then None else Some(r.value + 1)
  }

  /** `items` without its first item carrying `id` (unchanged when there is none). */
  function WithoutFirst(items: seq<Item>, id: string): seq<Item>
  {
    match FirstWithId(items, id)
    case None => items
    case Some(k) => items[..k] + items[k + 1..]
  }

  /** Removing the id of a just-added item with a fresh id restores the items. */
  lemma RemoveUndoesAdd(items: seq<Item>, it: Item)
    requires forall j :: 0 <= j < |items| ==> items[j].id != it.id
    ensures FirstWithId(items + [it], it.id) == Some(|items|)
    ensures WithoutFirst(items + [it], it.id) == items
  {
    var s := items + [it];
    var k := FirstWithId(s, it.id);
    assert s[|items|].id == it.id;
    assert forall j :: 0 <= j < |items| ==> s[j] == items[j];
    assert k.Some? && k.value == |items|;
    assert s[..|items|] == items;
  }

  /** `InvoiceData`: the fields add_item, remove_item and the totals touch. */
  class Invoice {
    var items: seq<Item>
    var subtotal: Option<real>
    var taxTotal: Option<real>
    var discount: Option<real>
    var total: Option<real>
    var updatedAt: Option<int>

    /**
     * A new invoice. The totals' validators run only on passed values, so
     * an invoice built without them starts with none.
     */
    constructor(items: seq<Item>, discount: Option<real>)
      ensures this.items == items && this.discount == discount
      ensures subtotal == None && taxTotal == None && total == None && updatedAt == None
    {
      this.items := items;
      this.discount := discount;
      subtotal := None;
      taxTotal := None;
      total := None;
      updatedAt := None;
    }

    /** The totals agree with the items: total = subtotal + tax - discount. */
    predicate TotalsAgree()
      reads this
    {
      && subtotal == Some(Subtotal(items))
      && taxTotal == Some(TaxTotal(items))
      && total == Some(Subtotal(items) + TaxTotal(items) - discount.GetOr(0.0))
    }

    /** `_recalculate_totals`; the clock reading is a parameter. */
    method RecalculateTotals(now: int)
      modifies this
      ensures items == old(items) && discount == old(discount)
      ensures TotalsAgree() && updatedAt == Some(now)
    {
      subtotal := Some(Subtotal(items));
      taxTotal := Some(0.0);
      var i := 0;
      while i < |items|
        invariant 0 <= i <= |items|
        invariant items == old(items) && discount == old(discount)
        invariant subtotal == Some(Subtotal(items))
        invariant taxTotal == Some(TaxTotal(items[..i]))
      {
        assert items[..i + 1][..i] == items[..i];
        taxTotal := Some(taxTotal.value + ItemTax(items[i]));
        i := i + 1;
      }
      assert items[..|items|] == items;
      total := Some(subtotal.value + taxTotal.value - discount.GetOr(0.0));
      updatedAt := Some(now);
    }

    /** `add_item`: exactly one item is appended and the totals follow. */
    method AddItem(it: Item, now: int)
      modifies this
      ensures items == old(items) + [it] && discount == old(discount)
      ensures TotalsAgree() && updatedAt == Some(now)
      ensures old(TotalsAgree()) ==> (subtotal.value == old(subtotal).value + Amount(it)
        && taxTotal.value == old(taxTotal).value + ItemTax(it))
    {
      items := items + [it];
      assert items[..|items| - 1] == old(items);
      RecalculateTotals(now);
    }

    /**
     * `remove_item`: the first item with `id` is removed and the totals
     * follow; with no such item nothing changes and the answer is false.
     */
    method RemoveItem(id: string, now: int) returns (removed: bool)
      modifies this
      ensures removed <==> exists j :: 0 <= j < |old(items)| && old(items)[j].id == id
      ensures items == WithoutFirst(old(items), id) && discount == old(discount)
      ensures removed ==> TotalsAgree() && updatedAt == Some(now)
      ensures !removed ==> (subtotal == old(subtotal) && taxTotal == old(taxTotal)
        && total == old(total) && updatedAt == old(updatedAt))
    {
      var i := 0;
      while i < |items|
        invariant 0 <= i <= |items|
        invariant forall j :: 0 <= j < i ==> items[j].id != id
      {
        if items[i].id == id {
          assert FirstWithId(items, id) == Some(i);
          items := items[..i] + items[i + 1..];
          RecalculateTotals(now);
          return true;
        }
        i := i + 1;
      }
      return false;
    }
  }

  /**
   * Under the code as written, `InvoiceItem(description=..., quantity=2,
   * unit_price=50)` has no amount, so the item adds nothing to an invoice's
   * subtotal.
   */
  lemma OmittedAmountAddsNothing(id: string, description: string)
    requires 1 <= |description| <= 500
    ensures NewItemAsWritten(id, description, Passed(2.0), 50.0, Omitted, None).Ok?
    ensures Subtotal([NewItemAsWritten(id, description, Passed(2.0), 50.0, Omitted, None).value]) == 0.0
  {
    var it := NewItemAsWritten(id, description, Passed(2.0), 50.0, Omitted, None).value;
    assert [it][..0] == [];
  }

  /** As intended, the same item adds quantity times unit price: 100. */
  lemma DefaultAmountAdds(id: string, description: string)
    requires 1 <= |description| <= 500
    ensures NewItem(id, description, Passed(2.0), 50.0, Omitted, None).Ok?
    ensures Subtotal([NewItem(id, description, Passed(2.0), 50.0, Omitted, None).value]) == 100.0
  {
    var it := NewItem(id, description, Passed(2.0), 50.0, Omitted, None).value;
    assert [it][..0] == [];
  }
}
