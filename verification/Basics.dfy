/** Types shared by the models. */
module Basics {
  datatype Option<+T> = None | Some(value: T)

  // Wrapped, so that ids are never mistaken for counts.
  datatype JobId = JobId(number: int)

  datatype Result<+T, +E> = Ok(value: T) | Err(error: E)

  // A sequence put together from the left.
  lemma Regrouped<T>(a: seq<T>, b: seq<T>)
    requires a != []
    ensures a + b == [a[0]] + (a[1..] + b)
  {
  }
}
