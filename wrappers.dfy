/** Option and Result: the model's replacements for `null`/`undefined`
    returns and for thrown JavaScript errors. */
module Wrappers {

  datatype Option<+T> = None | Some(value: T) {
    function GetOr(default: T): T {
      match this
      case Some(v) => v
      case None => default
    }
  }

  /** `Err` carries the `message` of the error the source throws. */
  datatype Result<+T> = Ok(value: T) | Err(message: string)
}
