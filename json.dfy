/** Decoded JSON values, as `json.loads` returns them. */
module JsonValue {
  import opened Common

  /** Numbers are exact reals: the int/float distinction of Python is not kept. */
  datatype Json =
    | Null
    | Bool(b: bool)
    | Num(n: real)
    | Str(s: string)
    | Arr(elems: seq<Json>)
    | Obj(fields: map<string, Json>)

  /** A decoded JSON object, a Python dict with string keys. */
  type JsonObject = map<string, Json>

  /** Python's `float(v)` on a decoded JSON value. Numbers and booleans convert; a string
      converts as `parseFloat`, which stands for Python's parsing of numeric text, says;
      null, lists and objects raise. */
  function AsFloat(v: Json, parseFloat: string -> Option<real>): (r: Option<real>)
    ensures v.Null? || v.Arr? || v.Obj? ==> r.None?
    ensures v.Num? ==> r == Some(v.n)
    ensures v.Bool? ==> r == Some(if v.b then 1.0 else 0.0)
    ensures v.Str? ==> r == parseFloat(v.s)
  {
    match v
    case Num(n) => Some(n)
    case Bool(b) => Some(if b then 1.0 else 0.0)
    case Str(s) => parseFloat(s)
    case _ => None
  }
}
