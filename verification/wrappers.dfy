/** Optional values and error results shared by every module of the model. */
module Wrappers {
  /** Python's `Optional[T]`: `None` or a value. */
  datatype Option<T> = None | Some(value: T)
  {
    function GetOr(default: T): (r: T)
      ensures this.Some? ==> r == value
      ensures this.None? ==> r == default
    {
      match this
      case Some(v) => v
      case None => default
    }
  }

  /** A computation that either produced a value or raised. */
  datatype Result<T, E> = Ok(value: T) | Err(error: E)
}
