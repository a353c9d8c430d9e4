/** Option and Result, the two wrappers every other module uses. */
module Wrappers {

  datatype Option<T> = None | Some(value: T)
  {
    function GetOr(default: T): T
    {
      match this
      case Some(v) => v
      case None => default
    }
  }

  /** A thrown JavaScript error is modelled as `Err` with its message. */
  datatype Result<T> = Ok(value: T) | Err(error: string)
}
