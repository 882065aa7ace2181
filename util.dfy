/** Small shared definitions: an optional value and the integer minimum. */
module Util {

  /** A value that may be absent (JavaScript's `undefined`/`null`). */
  datatype Option<+T> = None | Some(value: T)

  /** `Math.min` on integers. */
  function Min(a: int, b: int): int
  {
    if a <= b then a else b
  }
}
