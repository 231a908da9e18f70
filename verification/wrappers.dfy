/** Failure-compatible wrappers used throughout the model.
    - Option<T> stands for a C# reference or nullable value that may be null.
    - Result<T, E> stands for a computation that either completes or throws;
      the error value names the exception site.
 */
module Wrappers {

  datatype Option<+T> = None | Some(value: T) {

    predicate IsFailure() {
      None?
    }

    function PropagateFailure<U>(): Option<U>
      requires None?
    {
      None
    }

    function Extract(): T
      requires Some?
    {
      value
    }

    /** None becomes the given error. */
    function ToResult<E>(error: E): (r: Result<T, E>)
      ensures r.Success? <==> Some?
      ensures r.Success? ==> r.value == value
      ensures r.Failure? ==> r.error == error
    {
      match this
      case Some(v) => Success(v)
      case None => Failure(error)
    }
  }

  datatype Result<+T, +E> = Success(value: T) | Failure(error: E) {

    predicate IsFailure() {
      Failure?
    }

    function PropagateFailure<U>(): Result<U, E>
      requires Failure?
    {
      Failure(error)
    }

    function Extract(): T
      requires Success?
    {
      value
    }
  }

  /** The entry of `m` at `k`, or None when `k` is not a key. */
  function Get<K, V>(m: map<K, V>, k: K): (r: Option<V>)
    ensures r.Some? <==> k in m
    ensures r.Some? ==> r.value == m[k]
  {
    if k in m then Some(m[k]) else None
  }
}
