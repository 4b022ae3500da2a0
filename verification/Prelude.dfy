/** Shared vocabulary: optional values, exceptions as values, and identifiers. */
module Prelude {

  datatype Option<+T> = None | Some(value: T)

  /** A call that either returns a value or raises. */
  datatype Result<+T, +E> = Ok(value: T) | Raise(error: E)

  /** A UUID, as the 128-bit integer Python's `int(uuid)` gives. */
  type Uuid = nat

  datatype Marketplace = Amazon | Flipkart | Myntra | Nykaa

  lemma Associates<T>(a: seq<T>, b: seq<T>, c: seq<T>)
    ensures a + b + c == a + (b + c)
  {
  }
}
