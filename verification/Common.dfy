/** Small result types shared by every module. */
module Common {

  /** A value that may be absent: Go's nil pointers and `value, ok` pairs. */
  datatype Option<+T> = None | Some(value: T)

  /** A value or the error that replaced it: Go's `value, err` pairs. */
  datatype Result<+T, +E> = Ok(value: T) | Err(error: E)

  /** A test and the error for failing it; of two, the first failure counts. */
  function Unless<E>(passed: bool, error: E): Option<E> { if passed then None else Some(error) }

  function First<E>(a: Option<E>, b: Option<E>): Option<E> { if a.Some? then a else b }
}
