/** A Java `null`, an empty `Optional` and a JavaScript `undefined` are all `None` here. */
module Wrappers {
  datatype Option<T> = None | Some(value: T)
  {
    function GetOr(default: T): T
    {
      if Some? then value else default
    }
  }

  /** The outcome of an operation whose Java counterpart may throw. */
  datatype Result<T, E> = Success(value: T) | Failure(error: E)
}
