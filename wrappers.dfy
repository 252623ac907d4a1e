module Wrappers {
  datatype Option<+T> = None | Some(value: T)
  {
    /** The value, or `default` when it is missing: JavaScript's default-parameter rule. */
    function GetOr(default: T): T
    {
      match this
      case Some(v) => v
      case None => default
    }
  }

  datatype Result<+R, +E> = Success(value: R) | Failure(error: E)
}
