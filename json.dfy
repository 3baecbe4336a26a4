/** Payloads as `json.loads` produces them, and the Python operations the core applies to them:
    truth testing, `d[key]`, `d.get(key, default)`, `xs[i]` and `len(xs)`. */
module JsonValues {
  import opened Outcomes

  datatype Json =
    | JNull
    | JBool(b: bool)
    | JNum(n: real)
    | JStr(s: string)
    | JArr(items: seq<Json>)
    | JObj(fields: map<string, Json>)

  /** `bool(j)`: `None`, `False`, zero and empty containers are false. */
  predicate Truthy(j: Json)
  {
    match j
    case JNull => false
    case JBool(b) => b
    case JNum(n) => n != 0.0
    case JStr(s) => s != ""
    case JArr(items) => items != []
    case JObj(fields) => fields != map[]
  }

  /** An optional payload that holds data in the sense of `if payload:`. */
  predicate Present(p: Option<Json>)
  {
    p.Some? && Truthy(p.value)
  }

  /** `j[key]` with a string key: only a dict with that key answers. */
  function Subscript(j: Json, key: string): (r: Outcome<Json>)
    ensures r.Return? <==> j.JObj? && key in j.fields
    ensures r.Return? ==> r.value == j.fields[key]
    ensures r.Raise? ==> r.exc.Failure?
  {
    match j
    case JObj(fields) => if key in fields then Return(fields[key]) else Raise(Failure("KeyError"))
    case _ => Raise(Failure("TypeError"))
  }

  /** `d.get(key, default)` on a dict. */
  function GetOr(fields: map<string, Json>, key: string, default: Json): (r: Json)
    ensures key in fields ==> r == fields[key]
    ensures key !in fields ==> r == default
  {
    if key in fields then fields[key] else default
  }

  /** `j[i]` with an integer index: lists and strings accept `-len(j) <= i < len(j)`, counting
      negative indices from the end; a dict from JSON has only string keys. */
  function At(j: Json, i: int): (r: Outcome<Json>)
    ensures j.JArr? && 0 <= i < |j.items| ==> r == Return(j.items[i])
    ensures j.JArr? && -|j.items| <= i < 0 ==> r == Return(j.items[|j.items| + i])
    ensures r.Return? ==> j.JArr? || j.JStr?
    ensures r.Raise? ==> r.exc.Failure?
  {
    match j
    case JArr(items) =>
      if -|items| <= i < |items| then Return(items[if i < 0 then |items| + i else i])
      else Raise(Failure("IndexError"))
    case JStr(s) =>
      if -|s| <= i < |s| then Return(JStr([s[if i < 0 then |s| + i else i]]))
      else Raise(Failure("IndexError"))
    case JObj(_) => Raise(Failure("KeyError"))
    case _ => Raise(Failure("TypeError"))
  }

  /** `len(j)`. */
  function Length(j: Json): (r: Outcome<int>)
    ensures j.JArr? ==> r == Return(|j.items|)
    ensures r.Return? ==> r.value >= 0
    ensures r.Raise? ==> r.exc.Failure?
  {
    match j
    case JArr(items) => Return(|items|)
    case JStr(s) => Return(|s|)
    case JObj(fields) => Return(|fields|)
    case _ => Raise(Failure("TypeError"))
  }
}
