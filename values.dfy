/** Python value conventions the client code relies on: optional arguments
    (`None`), truthiness tests (`if name:`), and what an f-string prints for
    an optional string. */
module Values {

  datatype Option<+T> = None | Some(value: T)

  datatype Result<+T, +E> = Success(value: T) | Failure(error: E)

  /** Outcome of a validator: pass, or the exception it raises. */
  datatype Outcome<+E> = Pass | Fail(error: E)

  /** Python truthiness of an optional string: `None` and `""` are false. */
  predicate Truthy(s: Option<string>)
  {
    s.Some? && s.value != ""
  }

  /** What `f"{s}"` prints for an optional string: `None` prints as "None". */
  function Show(s: Option<string>): string
  {
    match s
    case None => "None"
    case Some(v) => v
  }

  /** Concatenation regrouped, for request logs built up call by call. */
  lemma AppendAssociative<T>(a: seq<T>, b: seq<T>, c: seq<T>)
    ensures a + b + c == a + (b + c)
  {
  }
}
