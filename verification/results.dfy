/** Failure-carrying values shared by the pagination and form-configuration models. */
module Results {

  /** A value that may be absent: PHP's null. */
  datatype Option<+T> = None | Some(value: T)

  /** Either a computed value or the error the PHP code would throw. */
  datatype Result<+T, +E> = Ok(value: T) | Err(error: E)

  function Min(a: int, b: int): (m: int)
    ensures m <= a && m <= b
    ensures m == a || m == b
  {
    if a <= b then a else b
  }
}
