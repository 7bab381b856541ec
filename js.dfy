/** JavaScript values as the dashboard scripts see them after JSON decoding,
    and the truthiness rule that every `x || default` in the scripts relies on. */
module Js {

  datatype Option<+T> = None | Some(value: T) {
    function GetOr(default: T): T {
      if Some? then value else default
    }
  }

  /** A JSON-decoded scalar. NaN is not represented (see README). */
  datatype JsValue = Undefined | Null | Bool(b: bool) | Num(n: int) | Str(s: string)

  /** JavaScript truthiness: `undefined`, `null`, `false`, `0` and `''` are falsy. */
  predicate Truthy(v: JsValue) {
    match v
    case Undefined => false
    case Null => false
    case Bool(b) => b
    case Num(n) => n != 0
    case Str(s) => s != ""
  }

  /** An optional string field is truthy when it is present and not empty. */
  predicate Present(s: Option<string>) {
    s.Some? && s.value != ""
  }

  /** `a || b || ''` over two optional string fields. */
  function FirstPresent(a: Option<string>, b: Option<string>): (r: string)
    ensures r == "" <==> !Present(a) && !Present(b)
    ensures Present(a) ==> r == a.value
    ensures !Present(a) && Present(b) ==> r == b.value
  {
    if Present(a) then a.value else if Present(b) then b.value else ""
  }
}
