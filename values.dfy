/** JavaScript values as they travel through the screen's state container.

    Action payloads are untyped in the source; the only values that ever reach
    the reducer are `null`, booleans, numbers and strings, so those are the
    four cases kept here. */
module Values {

  datatype Value = Null | Bool(b: bool) | Number(n: real) | Text(s: string)

  /** JavaScript truthiness, used by the conditional `state.scanned ? … : …`.
      NaN and `undefined` never reach the state and are not modelled. */
  predicate Truthy(v: Value)
  {
    match v
    case Null => false
    case Bool(b) => b
    case Number(n) => n != 0.0
    case Text(s) => s != ""
  }

  /** A value returned by `Math.random()`. */
  type Random = r: real | 0.0 <= r < 1.0
}
