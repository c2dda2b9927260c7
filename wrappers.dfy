/** Option and Result values used for missing data and for the exceptions the modelled code raises. */
module Wrappers {

  datatype Option<+T> = None | Some(value: T) {
    function GetOr(default: T): T {
      match this
      case Some(v) => v
      case None => default
    }
  }

  /** The kind of exception the Python code raises, with its message. */
  datatype Error = ValueError(msg: string) | KeyError(msg: string) | Exception(msg: string)

  datatype Result<+T> = Ok(value: T) | Err(error: Error)

  function Max(a: int, b: int): int
  {
    if a >= b then a else b
  }
}
