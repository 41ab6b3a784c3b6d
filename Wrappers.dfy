/** The null-or-value and value-or-exception shapes that the C# code expresses
    with null references and thrown exceptions. */
module Wrappers {

  /** A reference or string that may be null. */
  datatype Option<+T> = Null | Some(value: T) {
    /** C#'s null-coalescing operator `this ?? other`. */
    function OrElse(other: Option<T>): Option<T> {
      if Some? then this else other
    }
  }

  /** The result of an operation that either returns a value or throws. */
  datatype Result<+T, +E> = Ok(value: T) | Throws(error: E)

  /** |x| on reals. */
  function Abs(x: real): (r: real)
    ensures r >= 0.0 && (r == x || r == -x)
  {
    if x < 0.0 then -x else x
  }
}
