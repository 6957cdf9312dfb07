/**
 * The JSON object a language model returns for an invoice, as the bot's
 * extraction code reads it: values are null, strings, numbers or booleans,
 * and a missing key reads as the default the caller gives.
 */
module ExtractedData {

  /** A JSON scalar. Arrays and nested objects are not part of this model. */
  datatype Value = VNull | VStr(s: string) | VNum(x: real) | VBool(b: bool)

  /** A JSON object: its entries in order; a lookup reads the first entry with the key. */
  type Dict = seq<(string, Value)>

  /** Python truthiness of a JSON scalar. */
  predicate Truthy(v: Value)
  {
    match v
    case VNull => false
    case VStr(s) => s != ""
    case VNum(x) => x != 0.0
    case VBool(b) => b
  }

  /** `data.get(key, default)` */
  function Get(data: Dict, key: string, default: Value): (r: Value)
    ensures (exists i :: 0 <= i < |data| && data[i].0 == key) || r == default
    ensures forall i :: (0 <= i < |data| && data[i].0 == key &&
      (forall j :: 0 <= j < i ==> data[j].0 != key)) ==> r == data[i].1
  {
    if data == [] then default
    else if data[0].0 == key then data[0].1
    else Get(data[1..], key, default)
  }
}
