/** JavaScript values as the two request handlers see them: optional fields
    (`null`/`undefined` versus a present value) and the truthiness that the
    handlers test with `||`, `!x` and `filter(Boolean)`. */
module Js {

  /** A field that may be `null` or `undefined` (None) or hold a value. */
  datatype Option<+T> = None | Some(value: T) {
    /** `x ?? d` for the purposes of `(x || '')` when x is a string field. */
    function GetOr(default: T): T {
      match this
      case Some(v) => v
      case None => default
    }
  }

  /** A scalar column value returned by the store: SQL `null`, a number
      or a text value. */
  datatype Value = Null | Num(n: int) | Str(s: string)

  /** JavaScript truthiness of a scalar: `null`, `0` and `""` are falsy. */
  predicate Truthy(v: Value) {
    match v
    case Null => false
    case Num(n) => n != 0
    case Str(s) => s != ""
  }

  /** JavaScript truthiness of an optional string: absent and `""` are falsy. */
  predicate Present(s: Option<string>) {
    s.Some? && s.value != ""
  }

  /** The JavaScript expression `a || b` on optional strings. */
  function Or(a: Option<string>, b: Option<string>): Option<string> {
    if Present(a) then a else b
  }

  /** The JavaScript expression `s || null` on an optional string: a falsy
      value becomes `null`. */
  function OrNull(s: Option<string>): (r: Option<string>)
    ensures r.Some? <==> Present(s)
    ensures r.Some? ==> r == s
  {
    Or(s, None)
  }
}
