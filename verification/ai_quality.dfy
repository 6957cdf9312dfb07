/**
 * The upload bot's fallback quality check (invoice_bot/ai_integration.py):
 * when no model answers, extracted invoice data is scored on ten points by
 * the fields it has, and a name that looks like OCR garbage earns only
 * partial credit.
 */
module AiQuality {
  import opened Wrappers
  import opened Text
  import opened ExtractedData

  /**
   * `_is_valid_text`: more than 70% of the characters are letters, digits
   * or whitespace; the empty text is not valid.
   */
  predicate IsValidText(t: string)
    ensures IsValidText(t) ==> CleanCount(t) > 0
    ensures t != [] && CleanCount(t) == |t| ==> IsValidText(t)
    ensures |t| <= 3 ==> (IsValidText(t) <==> t != [] && CleanCount(t) == |t|)
  {
    t != [] && CleanCount(t) as real / |t| as real > 0.7
  }

  /** A name or address field's value, before the length test. */
  predicate Present(v: Value)
  {
    Truthy(v) && v != VStr("Not found")
  }

  /**
   * Points for the contractor name (2, or 0.5 when garbled). `len` of a
   * number or of `True` raises `TypeError`.
   */
  function NamePoints(v: Value): (r: Result<real, string>)
    ensures r.Err? <==> Present(v) && !v.VStr?
    ensures r == Ok(2.0) <==> v.VStr? && |v.s| > 2 && v.s != "Not found" && IsValidText(v.s)
    ensures r == Ok(0.5) <==> v.VStr? && |v.s| > 2 && v.s != "Not found" && !IsValidText(v.s)
    ensures r.Ok? ==> r.value in {0.0, 0.5, 2.0}
  {
    if !Present(v) then Ok(0.0)
    else if !v.VStr? then Err("TypeError")
    else if |v.s| <= 2 then Ok(0.0)
    else if IsValidText(v.s) then Ok(2.0)
    else Ok(0.5)
  }

  /** Points for the e-mail (2 when it has an `@` and a `.`); `in` on a number or `True` raises. */
  function EmailPoints(v: Value): (r: Result<real, string>)
    ensures r.Err? <==> Truthy(v) && !v.VStr?
    ensures r == Ok(2.0) <==> v.VStr? && '@' in v.s && '.' in v.s
    ensures r.Ok? ==> r.value in {0.0, 2.0}
  {
    if !Truthy(v) then Ok(0.0)
    else if !v.VStr? then Err("TypeError")
    else if '@' in v.s && '.' in v.s then Ok(2.0)
    else Ok(0.0)
  }

  /** Points for the address (1 when longer than five characters). */
  function AddressPoints(v: Value): (r: Result<real, string>)
    ensures r.Err? <==> Present(v) && !v.VStr?
    ensures r == Ok(1.0) <==> v.VStr? && |v.s| > 5 && v.s != "Not found"
    ensures r.Ok? ==> r.value in {0.0, 1.0}
  {
    if !Present(v) then Ok(0.0)
    else if !v.VStr? then Err("TypeError")
    else if |v.s| > 5 then Ok(1.0)
    else Ok(0.0)
  }

  /**
   * Points for a field that only has to be present: invoice number (1.5) or
   * date (1). Unlike the name, any truthy value counts, a number or `True`
   * included; empty values and the "Not found" placeholder earn nothing.
   */
  function PresencePoints(v: Value, weight: real): (r: real)
    ensures r == 0.0 || r == weight
    ensures v.VNull? || v == VStr("") || v == VStr("Not found") || v == VNum(0.0) || v == VBool(false) ==> r == 0.0
    ensures v.VNum? && v.x != 0.0 ==> r == weight && NamePoints(v).Err?
    ensures v == VBool(true) ==> r == weight
    ensures v.VStr? && v.s != "" && v.s != "Not found" ==> r == weight
  {
    if Present(v) then weight else 0.0
  }

  /** Points for an amount (1.25 when positive); comparing a string with 0 raises. */
  function AmountPoints(v: Value): (r: Result<real, string>)
    ensures r.Err? <==> v.VStr? && v.s != ""
    ensures r == Ok(1.25) <==> (v.VNum? && v.x > 0.0) || v == VBool(true)
    ensures r.Ok? ==> r.value in {0.0, 1.25}
  {
    match v
    case VNull => Ok(0.0)
    case VStr(s) => if s == "" then Ok(0.0) else Err("TypeError")
    case VNum(x) => if x > 0.0 then Ok(1.25) else Ok(0.0)
    case VBool(b) => if b then Ok(1.25) else Ok(0.0)
  }

  /** The fields the quality check reads, with the defaults of their `get`. */
  function Name(data: Dict): Value { Get(data, "contractor_name", VStr("")) }
  function Email(data: Dict): Value { Get(data, "contractor_email", VStr("")) }
  function Address(data: Dict): Value { Get(data, "contractor_address", VStr("")) }
  function Number(data: Dict): Value { Get(data, "invoice_number", VStr("")) }
  function Date(data: Dict): Value { Get(data, "invoice_date", VStr("")) }
  function Subtotal(data: Dict): Value { Get(data, "subtotal", VNum(0.0)) }
  function Total(data: Dict): Value { Get(data, "total", VNum(0.0)) }

  /** The check raises exactly when one of its field tests does. */
  predicate Raises(data: Dict)
  {
    NamePoints(Name(data)).Err? || EmailPoints(Email(data)).Err? || AddressPoints(Address(data)).Err?
    || AmountPoints(Subtotal(data)).Err? || AmountPoints(Total(data)).Err?
  }

  /**
   * `_heuristic_quality_check`: the points earned out of ten, so a score
   * between 0 and 1, unless a field of the wrong type makes a test raise.
   */
  function HeuristicQualityCheck(data: Dict): (r: Result<real, string>)
    ensures r.Err? <==> Raises(data)
    ensures r.Ok? ==> 0.0 <= r.value <= 1.0
  {
    if Raises(data) then Err("TypeError")
    else
      var score := NamePoints(Name(data)).value + EmailPoints(Email(data)).value
        + AddressPoints(Address(data)).value + PresencePoints(Number(data), 1.5) + PresencePoints(Date(data), 1.0)
        + AmountPoints(Subtotal(data)).value + AmountPoints(Total(data)).value;
      Ok(score / 10.0)
  }

  /** Nothing extracted scores zero. */
  lemma EmptyScoresZero()
    ensures HeuristicQualityCheck([]) == Ok(0.0)
  {
  }

  /** A record with every checked field well filled scores full marks. */
  lemma FullMarks(data: Dict)
    requires var n := Name(data); n.VStr? && |n.s| > 2 && n.s != "Not found" && IsValidText(n.s)
    requires var e := Email(data); e.VStr? && '@' in e.s && '.' in e.s
    requires var a := Address(data); a.VStr? && |a.s| > 5 && a.s != "Not found"
    requires Present(Number(data)) && Present(Date(data))
    requires Subtotal(data).VNum? && Subtotal(data).x > 0.0
    requires Total(data).VNum? && Total(data).x > 0.0
    ensures HeuristicQualityCheck(data) == Ok(1.0)
  {
  }

  /**
   * A garbled name costs 1.5 of the 10 points: the same record with a valid
   * name of its own scores 0.15 more.
   */
  lemma GarbledNameCosts(data: Dict, garbled: string, valid: string)
    requires |garbled| > 2 && garbled != "Not found" && !IsValidText(garbled)
    requires |valid| > 2 && valid != "Not found" && IsValidText(valid)
    requires !Raises([("contractor_name", VStr(garbled))] + data)
    ensures !Raises([("contractor_name", VStr(valid))] + data)
    ensures HeuristicQualityCheck([("contractor_name", VStr(valid))] + data).value
      == HeuristicQualityCheck([("contractor_name", VStr(garbled))] + data).value + 0.15
  {
    var g := [("contractor_name", VStr(garbled))] + data;
    var v := [("contractor_name", VStr(valid))] + data;
    assert Name(g) == VStr(garbled) && Name(v) == VStr(valid);
    assert g[1..] == data && v[1..] == data;
  }
}
