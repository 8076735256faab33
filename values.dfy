/** JavaScript values as the request handlers see them once a JSON body has been
    parsed, and the two notions of "presence" the handlers test them with. */
module Values {

  datatype Option<+T> = None | Some(value: T)

  /** A field of a parsed JSON body. `Undefined` is what reading a missing key
      gives; JSON itself can only produce the other five. Numbers are integers
      here (see README, "Left out"). */
  datatype Value = Undefined | Null | Bool(b: bool) | Num(n: int) | Str(s: string)

  /** JavaScript truthiness: `undefined`, `null`, `false`, `0` and `""` are falsy. */
  predicate Truthy(v: Value): (b: bool)
    ensures !b <==> v in {Undefined, Null, Bool(false), Num(0), Str("")}
  {
    match v
    case Undefined => false
    case Null => false
    case Bool(b) => b
    case Num(n) => n != 0
    case Str(s) => s != ""
  }

  /** `obj.key` on a parsed JSON object: a missing key reads as `undefined`. */
  function Field(obj: map<string, Value>, key: string): (v: Value)
    ensures key !in obj ==> v == Undefined
    ensures v != Undefined ==> key in obj && obj[key] == v
  {
    if key in obj then obj[key] else Undefined
  }

  /** `v || d`: the value itself when truthy, else the default. */
  function Or(v: Value, d: Value): (r: Value)
    ensures r == v || r == d
    ensures Truthy(r) <==> Truthy(v) || Truthy(d)
    ensures Truthy(v) ==> r == v
  {
    if Truthy(v) then v else d
  }

  /** `v !== undefined && { v }` spread over `previous`: the value itself unless undefined. */
  function Defined(v: Value, previous: Value): (r: Value)
    ensures r == v || r == previous
    ensures r == Undefined <==> v == Undefined && previous == Undefined
    ensures v != Undefined ==> r == v
  {
    if v != Undefined then v else previous
  }
}
