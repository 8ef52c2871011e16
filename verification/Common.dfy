/** Small shared datatypes: optional values, results and the error classes of the services. */
module Common {

  datatype Option<+T> = None | Some(value: T)

  datatype Result<+T, +E> = Ok(value: T) | Err(error: E)

  /** The platform's error classes that a service method can raise. */
  datatype Error = ValidationFailed | Forbidden | Conflict | NotFound | RateLimited | UpstreamUnavailable

  function Max(a: int, b: int): int {
    if a < b then b else a
  }

  function Min(a: int, b: int): int {
    if a < b then a else b
  }

  lemma SubsetIsSmaller<T>(a: set<T>, b: set<T>)
    requires a <= b
    ensures |a| <= |b|
  {
    assert b == a + (b - a);
  }
}
