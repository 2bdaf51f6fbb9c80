/** Option and Result values shared by the whole model. A Python `None` is `None`;
    a raised exception is `Err` carrying the text that `str(exc)` would give. */
module Wrappers {

  datatype Option<T> = None | Some(value: T) {
    /** The value carried, or `default` when there is none. */
    function GetOr(default: T): T {
      match this
      case Some(v) => v
      case None => default
    }
  }

  datatype Result<T> = Ok(value: T) | Err(error: string)
}
