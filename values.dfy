/** Small value types shared by the whole model: optional values and the
    pieces of JavaScript value semantics (truthiness, `a || b` defaults)
    that the front end's decisions depend on. */
module Values {

  /** `undefined`/`null` versus a present value. */
  datatype Option<+T> = None | Some(value: T)

  /** A loosely typed JavaScript value, as found in a decoded token claim
      or a form field before validation. */
  datatype JsValue = Undefined | Null | Bool(b: bool) | Num(n: int) | Str(s: string)

  /** `!!v`: undefined, null, false, 0 and "" are falsy, everything else truthy. */
  predicate Truthy(v: JsValue)
  {
    match v
    case Undefined => false
    case Null => false
    case Bool(b) => b
    case Num(n) => n != 0
    case Str(s) => s != ""
  }

  /** `!!s` for a string that may be missing: missing and "" are falsy. */
  predicate Present(s: Option<string>)
  {
    s.Some? && s.value != ""
  }

  /** `s || fallback` for a string that may be missing. */
  function OrElse(s: Option<string>, fallback: string): string
  {
    if Present(s) then s.value else fallback
  }

  /** The value a number field of a dialog is confirmed with: no value, an
      empty field, or a whole number. */
  datatype NumberField = NullInput | EmptyInput | NumberInput(n: int)
}
