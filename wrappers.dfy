/** Option and Result, used where the JavaScript source returns `null`/`undefined`
    or throws an `Error` with a message. */
module Wrappers {

  datatype Option<+T> = None | Some(value: T) {
    function GetOr(default: T): T {
      match this
      case Some(v) => v
      case None => default
    }
  }

  datatype Result<+R> = Ok(value: R) | Err(message: string)

  function Min(a: int, b: int): int { if a <= b then a else b }
}
