/** Failure-carrying datatypes shared by every component of the model. */
module Common {

  datatype Option<+T> = None | Some(value: T)

  datatype Result<+T, +E> = Ok(value: T) | Err(error: E)

  /** The largest value of the C++ `int` in which libpq reports counts and lengths. */
  const INT_MAX: nat := 0x7FFF_FFFF

  function Min(a: int, b: int): int {
    if a < b then a else b
  }
}
