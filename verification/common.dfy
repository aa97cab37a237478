/** Small value types shared by every component of the model. */
module Common {

  /** A value that may be absent: a missing file, a missing `data.data` field. */
  datatype Option<T> = None | Some(value: T)

  /** The outcome of evaluating JavaScript that may throw. */
  datatype Result<T, E> = Success(value: T) | Failure(error: E)

  /** The exceptions the modelled handlers can raise on their own (network failures are replies). */
  datatype JsError = ReferenceError(name: string)

  /** `Math.min` on integers. */
  function Min(a: int, b: int): (r: int)
    ensures r <= a && r <= b
    ensures r == a || r == b
  {
    if a <= b then a else b
  }
}
