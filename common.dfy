/** Small shared vocabulary: optional values, outcomes that may fail, and a few real-number helpers. */
module Common {

  /** A value that may be absent (`null` / `undefined` in the application). */
  datatype Option<+T> = None | Some(value: T)

  /** The outcome of an operation that may throw; `error` is the thrown message. */
  datatype Result<+T> = Success(value: T) | Failure(error: string)

  function Abs(x: real): (r: real)
  {
    if x < 0.0 then -x else x
  }

  function Min(a: real, b: real): (r: real)
  {
    if a <= b then a else b
  }

  function Max(a: real, b: real): (r: real)
  {
    if a >= b then a else b
  }
}
