/** Failure-carrying values and facts of real arithmetic shared by every part of the solver model. */
module Basics {

  datatype Option<T> = None | Some(value: T)

  datatype Result<T> = Ok(value: T) | Err(error: Error)

  /** The exceptions the solver raises, one constructor per cause. */
  datatype Error =
    | UnknownMaterial   // KeyError: the material is not in the diffusivity table
    | InvalidDimension  // ValueError: the dimension is neither "1D" nor "2D"
    | DivisionByZero    // ZeroDivisionError in a float division
    | SingularMatrix    // ValueError raised when the linear solve fails
    | InvalidIndices    // ValueError: bracket indices out of range or out of order
    | NotBracketed      // ValueError: the value lies outside the bracket
    | IndexOutOfRange   // IndexError: a sample index beyond the sample list

  lemma NonNegativeProduct(x: real, y: real)
    requires 0.0 <= x && 0.0 <= y
    ensures 0.0 <= x * y
  {
  }

  lemma QuotientTimesDivisor(a: real, b: real)
    requires b != 0.0
    ensures (a / b) * b == a
  {
  }

  lemma QuotientNonnegative(p: real, d: real)
    requires d != 0.0
    ensures 0.0 <= p && 0.0 < d ==> 0.0 <= p / d
  {
  }
}
