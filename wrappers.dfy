/** Optional values and success/failure results, usable with `:-` the way
    the Rust source uses `Option`, `Result` and the `?` operator. */
module Wrappers {

  datatype Option<+T> = None | Some(value: T) {

    /** Rust's `Option::ok_or`: a present value succeeds, an absent one
        becomes the given error. */
    function OkOr<E>(error: E): (r: Result<T, E>)
      ensures r.Ok? <==> Some?
      ensures Some? ==> r == Ok(value)
      ensures None? ==> r == Err(error)
    {
      match this
      case Some(v) => Ok(v)
      case None => Err(error)
    }
  }

  datatype Result<+T, +E> = Ok(value: T) | Err(error: E) {

    predicate IsFailure() {
      Err?
    }

    function PropagateFailure<U>(): Result<U, E>
      requires Err?
    {
      Err(error)
    }

    function Extract(): T
      requires Ok?
    {
      value
    }
  }
}
