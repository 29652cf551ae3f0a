/**
  The Python values that request payloads and serializer attribute dicts
  carry, with Python's truth test and dict.get.
 */
module PyValue {
  import opened Wrappers

  datatype Value =
    | Null
    | Bool(b: bool)
    | Int(i: int)
    | Num(r: real)
    | Str(s: string)
    | Date(day: int)
    | List(items: seq<Value>)
    | Dict(fields: map<string, Value>)

  /** A serializer's attrs, or any JSON object. */
  type Attrs = map<string, Value>

  /** bool(v): None, False, zero, "" and empty containers are false; a date is always true. */
  predicate Truthy(v: Value)
  {
    match v
    case Null => false
    case Bool(b) => b
    case Int(i) => i != 0
    case Num(r) => r != 0.0
    case Str(s) => s != ""
    case Date(_) => true
    case List(items) => items != []
    case Dict(fields) => fields != map[]
  }

  /** attrs.get(key): None when the key is absent. */
  function Get(attrs: Attrs, key: string): (v: Value)
    ensures key !in attrs ==> v == Null
    ensures key in attrs ==> v == attrs[key]
  {
    if key in attrs then attrs[key] else Null
  }

  /** The date a date field holds, if any (DRF has already turned it into a date or None). */
  function DateOf(v: Value): Option<int>
  {
    if v.Date? then Some(v.day) else None
  }
}
