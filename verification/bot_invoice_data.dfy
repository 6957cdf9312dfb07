/**
 * The upload bot's invoice record (invoice_bot/invoice_data.py): its work
 * items, the completeness check and the list of missing fields, the total,
 * and the dictionary form it is saved in.
 */
module BotInvoiceData {
  import opened Wrappers

  /** `WorkItem` */
  datatype WorkItem = WorkItem(propertyAddress: string, plot: string, description: string, amount: real)

  /** `InvoiceData`; money is real, dates are the strings the record keeps. */
  datatype InvoiceData = InvoiceData(
    contractorName: string,
    contractorAddress: string,
    contractorEmail: string,
    contractorUtr: string,
    contractorNi: string,
    bankAccount: string,
    sortCode: string,
    cardholderName: string,
    invoiceNumber: string,
    invoiceDate: string,
    workStartDate: string,
    workEndDate: string,
    workItems: seq<WorkItem>,
    operativeNames: string,
    subtotal: real,
    vatAmount: real,
    cisAmount: real,
    total: real,
    createdAt: string,
    source: string)

  // ---------------------------------------------------------------------------
  // Completeness
  // ---------------------------------------------------------------------------

  /** `is_complete`: name, address, number and date are filled and there is a work item. */
  predicate IsComplete(inv: InvoiceData)
  {
    inv.contractorName != "" && inv.contractorAddress != "" && inv.invoiceNumber != ""
    && inv.invoiceDate != "" && |inv.workItems| > 0
  }

  function Flag(missing: bool, name: string): seq<string>
  {
    if missing then [name] else []
  }

  /** `get_missing_fields`: the labels of the empty required fields, in form order. */
  function MissingFields(inv: InvoiceData): (r: seq<string>)
    ensures "Contractor Name" in r <==> inv.contractorName == ""
    ensures "Contractor Address" in r <==> inv.contractorAddress == ""
    ensures "Contractor Email" in r <==> inv.contractorEmail == ""
    ensures "Invoice Number" in r <==> inv.invoiceNumber == ""
    ensures "Invoice Date" in r <==> inv.invoiceDate == ""
    ensures "Work Items" in r <==> inv.workItems == []
    ensures |r| <= 6
  {
    Flag(inv.contractorName == "", "Contractor Name")
    + Flag(inv.contractorAddress == "", "Contractor Address")
    + Flag(inv.contractorEmail == "", "Contractor Email")
    + Flag(inv.invoiceNumber == "", "Invoice Number")
    + Flag(inv.invoiceDate == "", "Invoice Date")
    + Flag(inv.workItems == [], "Work Items")
  }

  /**
   * The two checks differ only in the e-mail: a record is complete exactly
   * when nothing but the e-mail may be missing, so a complete record without
   * an e-mail still reports it missing.
   */
  lemma CompleteUnlessOnlyEmail(inv: InvoiceData)
    ensures IsComplete(inv) <==> MissingFields(inv) in {[], ["Contractor Email"]}
    ensures IsComplete(inv) && inv.contractorEmail == "" ==> MissingFields(inv) == ["Contractor Email"]
  {
    var r := MissingFields(inv);
    if IsComplete(inv) {
      assert r == Flag(inv.contractorEmail == "", "Contractor Email");
    } else {
      assert r != [] && r != ["Contractor Email"] by {
        if inv.contractorName == "" {
          assert "Contractor Name" in r;
        } else if inv.contractorAddress == "" {
          assert "Contractor Address" in r;
        } else if inv.invoiceNumber == "" {
          assert "Invoice Number" in r;
        } else if inv.invoiceDate == "" {
          assert "Invoice Date" in r;
        } else {
          assert "Work Items" in r;
        }
      }
    }
  }

  // ---------------------------------------------------------------------------
  // Totals
  // ---------------------------------------------------------------------------

  function ItemsTotal(items: seq<WorkItem>): real
  {
    if items == [] then 0.0 else ItemsTotal(items[..|items| - 1]) + items[|items| - 1].amount
  }

  /** The record, mutated by its total calculations. */
  class InvoiceRecord {
    var data: InvoiceData

    constructor(data: InvoiceData)
      ensures this.data == data
    {
      this.data := data;
    }

    /** `calculate_total`: total = subtotal + VAT - CIS, stored and returned. */
    method CalculateTotal() returns (t: real)
      modifies this
      ensures t == old(data.subtotal) + old(data.vatAmount) - old(data.cisAmount)
      ensures data == old(data).(total := t)
    {
      t := data.subtotal + data.vatAmount - data.cisAmount;
      data := data.(total := t);
    }

    /**
     * `calculate_subtotal_from_items` as written: the generator reads a
     * name `work_items` that is bound nowhere (the attribute is
     * `self.work_items`), so every call raises `NameError` before the
     * subtotal is assigned.
     */
    method CalculateSubtotalFromItemsAsWritten() returns (r: Result<real, string>)
      modifies this
      ensures r == Err("NameError")
      ensures data == old(data)
    {
      r := Err("NameError");
    }

    /** `calculate_subtotal_from_items` as intended: the subtotal becomes the sum of the item amounts. */
    method CalculateSubtotalFromItems() returns (s: real)
      modifies this
      ensures s == ItemsTotal(old(data.workItems))
      ensures data == old(data).(subtotal := s)
    {
      s := 0.0;
      var i := 0;
      while i < |data.workItems|
        invariant 0 <= i <= |data.workItems| && data == old(data)
        invariant s == ItemsTotal(data.workItems[..i])
      {
        assert data.workItems[..i + 1][..i] == data.workItems[..i];
        s := s + data.workItems[i].amount;
        i := i + 1;
      }
      assert data.workItems[..|data.workItems|] == data.workItems;
      data := data.(subtotal := s);
    }
  }

  /**
   * Recomputing the subtotal from the items and then the total leaves the
   * total at the items' sum plus VAT minus CIS, with the items untouched.
   */
  method TotalAfterItems(rec: InvoiceRecord) returns (t: real)
    modifies rec
    ensures t == ItemsTotal(old(rec.data.workItems)) + old(rec.data.vatAmount) - old(rec.data.cisAmount)
    ensures rec.data.total == t && rec.data.workItems == old(rec.data.workItems)
  {
    var s := rec.CalculateSubtotalFromItems();
    t := rec.CalculateTotal();
  }

  // ---------------------------------------------------------------------------
  // The dictionary form
  // ---------------------------------------------------------------------------

  /** The values of the saved dictionary. */
  datatype Json =
    | JStr(s: string)
    | JNum(x: real)
    | JItems(items: seq<map<string, Json>>)

  function ItemToDict(w: WorkItem): map<string, Json>
  {
    map["property_address" := JStr(w.propertyAddress), "plot" := JStr(w.plot),
        "description" := JStr(w.description), "amount" := JNum(w.amount)]
  }

  function ItemsToDicts(items: seq<WorkItem>): (r: seq<map<string, Json>>)
    ensures |r| == |items|
    ensures forall k :: 0 <= k < |items| ==> r[k] == ItemToDict(items[k])
  {
    if items == [] then [] else [ItemToDict(items[0])] + ItemsToDicts(items[1..])
  }

  /** `to_dict` */
  function ToDict(inv: InvoiceData): map<string, Json>
  {
    map[
      "contractor_name" := JStr(inv.contractorName),
      "contractor_address" := JStr(inv.contractorAddress),
      "contractor_email" := JStr(inv.contractorEmail),
      "contractor_utr" := JStr(inv.contractorUtr),
      "contractor_ni" := JStr(inv.contractorNi),
      "bank_account" := JStr(inv.bankAccount),
      "sort_code" := JStr(inv.sortCode),
      "cardholder_name" := JStr(inv.cardholderName),
      "invoice_number" := JStr(inv.invoiceNumber),
      "invoice_date" := JStr(inv.invoiceDate),
      "work_start_date" := JStr(inv.workStartDate),
      "work_end_date" := JStr(inv.workEndDate),
      "work_items" := JItems(ItemsToDicts(inv.workItems)),
      "operative_names" := JStr(inv.operativeNames),
      "subtotal" := JNum(inv.subtotal),
      "vat_amount" := JNum(inv.vatAmount),
      "cis_amount" := JNum(inv.cisAmount),
      "total" := JNum(inv.total),
      "created_at" := JStr(inv.createdAt),
      "source" := JStr(inv.source)]
  }

  /** `data.get(key, "")` for a text field. */
  function Text(d: map<string, Json>, key: string): Result<string, string>
  {
    if key !in d then Ok("")
    else match d[key]
      case JStr(s) => Ok(s)
      case _ => Err("TypeError")
  }

  /** `float(data.get(key, 0))` */
  function Number(d: map<string, Json>, key: string): Result<real, string>
  {
    if key !in d then Ok(0.0)
    else match d[key]
      case JNum(x) => Ok(x)
      case _ => Err("ValueError")
  }

  /** `WorkItem.from_dict` */
  function ItemFromDict(d: map<string, Json>): Result<WorkItem, string>
  {
    var address := Text(d, "property_address");
    var plot := Text(d, "plot");
    var description := Text(d, "description");
    var amount := Number(d, "amount");
    if address.Err? || plot.Err? || description.Err? || amount.Err? then Err("TypeError")
    else Ok(WorkItem(address.value, plot.value, description.value, amount.value))
  }

  /** The work items read back one by one, in order. */
  function ItemsFromDicts(ds: seq<map<string, Json>>): (r: Result<seq<WorkItem>, string>)
    ensures r.Ok? ==> |r.value| == |ds|
  {
    if ds == [] then Ok([])
    else
      var first := ItemFromDict(ds[0]);
      var rest := ItemsFromDicts(ds[1..]);
      if first.Err? || rest.Err? then Err("TypeError") else Ok([first.value] + rest.value)
  }

  function ItemsOf(d: map<string, Json>): Result<seq<WorkItem>, string>
  {
    if "work_items" !in d then Ok([])
    else match d["work_items"]
      case JItems(ds) => ItemsFromDicts(ds)
      case _ => Err("TypeError")
  }

  /** `from_dict`: every key is optional and falls back to the field's default. */
  function FromDict(d: map<string, Json>): (r: Result<InvoiceData, string>)
    ensures d == map[] ==> r.Ok? && r.value.workItems == [] && r.value.total == 0.0 && !IsComplete(r.value)
  {
    var name := Text(d, "contractor_name");
    var address := Text(d, "contractor_address");
    var email := Text(d, "contractor_email");
    var utr := Text(d, "contractor_utr");
    var ni := Text(d, "contractor_ni");
    var account := Text(d, "bank_account");
    var sortCode := Text(d, "sort_code");
    var cardholder := Text(d, "cardholder_name");
    var number := Text(d, "invoice_number");
    var date := Text(d, "invoice_date");
    var start := Text(d, "work_start_date");
    var end := Text(d, "work_end_date");
    var operatives := Text(d, "operative_names");
    var subtotal := Number(d, "subtotal");
    var vat := Number(d, "vat_amount");
    var cis := Number(d, "cis_amount");
    var total := Number(d, "total");
    var created := Text(d, "created_at");
    var source := Text(d, "source");
    var items := ItemsOf(d);
    if name.Err? || address.Err? || email.Err? || utr.Err? || ni.Err? || account.Err? || sortCode.Err?
       || cardholder.Err? || number.Err? || date.Err? || start.Err? || end.Err? || operatives.Err?
       || subtotal.Err? || vat.Err? || cis.Err? || total.Err? || created.Err? || source.Err? || items.Err?
    then Err("TypeError")
    else Ok(InvoiceData(name.value, address.value, email.value, utr.value, ni.value, account.value,
                        sortCode.value, cardholder.value, number.value, date.value, start.value, end.value,
                        items.value, operatives.value, subtotal.value, vat.value, cis.value, total.value,
                        created.value, source.value))
  }

  /** Every work item reads back from its dictionary. */
  lemma {:induction false} ItemsRoundTrip(items: seq<WorkItem>)
    ensures ItemsFromDicts(ItemsToDicts(items)) == Ok(items)
  {
    if items != [] {
      var ds := ItemsToDicts(items);
      assert ds[1..] == ItemsToDicts(items[1..]);
      ItemsRoundTrip(items[1..]);
      var w := items[0];
      assert ItemFromDict(ItemToDict(w)) == Ok(w);
      assert [w] + items[1..] == items;
    }
  }

  lemma ContractorFieldsRead(inv: InvoiceData)
    ensures var d := ToDict(inv);
      && Text(d, "contractor_name") == Ok(inv.contractorName)
      && Text(d, "contractor_address") == Ok(inv.contractorAddress)
      && Text(d, "contractor_email") == Ok(inv.contractorEmail)
      && Text(d, "contractor_utr") == Ok(inv.contractorUtr)
      && Text(d, "contractor_ni") == Ok(inv.contractorNi)
  {
  }

  lemma PaymentFieldsRead(inv: InvoiceData)
    ensures var d := ToDict(inv);
      && Text(d, "bank_account") == Ok(inv.bankAccount)
      && Text(d, "sort_code") == Ok(inv.sortCode)
      && Text(d, "cardholder_name") == Ok(inv.cardholderName)
  {
  }

  lemma DetailFieldsRead(inv: InvoiceData)
    ensures var d := ToDict(inv);
      && Text(d, "invoice_number") == Ok(inv.invoiceNumber)
      && Text(d, "invoice_date") == Ok(inv.invoiceDate)
      && Text(d, "work_start_date") == Ok(inv.workStartDate)
      && Text(d, "work_end_date") == Ok(inv.workEndDate)
      && Text(d, "operative_names") == Ok(inv.operativeNames)
      && Text(d, "created_at") == Ok(inv.createdAt)
      && Text(d, "source") == Ok(inv.source)
  {
  }

  lemma MoneyFieldsRead(inv: InvoiceData)
    ensures var d := ToDict(inv);
      && Number(d, "subtotal") == Ok(inv.subtotal)
      && Number(d, "vat_amount") == Ok(inv.vatAmount)
      && Number(d, "cis_amount") == Ok(inv.cisAmount)
      && Number(d, "total") == Ok(inv.total)
      && ItemsOf(d) == ItemsFromDicts(ItemsToDicts(inv.workItems))
  {
  }

  /** A saved record reads back with every field, work items included. */
  lemma RoundTrip(inv: InvoiceData)
    ensures FromDict(ToDict(inv)) == Ok(inv)
  {
    ContractorFieldsRead(inv);
    PaymentFieldsRead(inv);
    DetailFieldsRead(inv);
    MoneyFieldsRead(inv);
    ItemsRoundTrip(inv.workItems);
  }
}
