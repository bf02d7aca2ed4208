// Optional values and outcomes shared by every module of the model.
// `Option` stands for a Java reference that may be null; `Result` stands for
// a call that either returns a value or throws, the error naming the exception.

module Wrappers {

  datatype Option<T> = None | Some(value: T)
  {
    function GetOr(default: T): T
    {
      if Some? then value else default
    }
  }

  datatype Result<T> = Success(value: T) | Failure(error: string)
}
