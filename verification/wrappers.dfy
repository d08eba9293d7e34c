/** Option and Result, the two failure-carrying shapes the error taxonomy is used with. */
module Wrappers {

  datatype Option<+T> = None | Some(value: T)

  /** Rust's `Result<T, E>`: either a value or an error. */
  datatype Result<+T, +E> = Ok(value: T) | Err(error: E)

  /**
   * The `?` operator of a function whose declared error type is `F`, applied to
   * `r`: a value passes through unchanged, an error is converted with the `From`
   * conversion `from` and returned early.
   */
  function Propagate<T, E, F>(r: Result<T, E>, from: E -> F): Result<T, F>
  {
    match r
    case Ok(v) => Ok(v)
    case Err(e) => Err(from(e))
  }
}
