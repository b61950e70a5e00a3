/** Optional values, results and the errors the system throws. */
module Base {

  datatype Option<+T> = None | Some(value: T)

  /** The value of a computation that may throw. */
  datatype Result<+T> = Ok(value: T) | Err(error: Error)

  /** A computation that returns nothing but may throw. */
  datatype Outcome = Pass | Fail(error: Error)

  /** A thrown JavaScript `Error`, identified by its message. */
  datatype Error = Error(message: string)

  /** The message of the TypeError raised by reading a property of `null` or `undefined`. */
  const TypeErrorMessage := "TypeError: Cannot read properties of null or undefined"

  function Min(a: int, b: int): int { if a < b then a else b }
  function Max(a: int, b: int): int { if a < b then b else a }

  /** Concatenation is associative; the solver does not always regroup on its own. */
  lemma SeqAssoc<T>(a: seq<T>, b: seq<T>, c: seq<T>)
    ensures (a + b) + c == a + (b + c)
  {
  }
}
