/** Option and Result types shared by the whole model.  A JavaScript `null` or
    `undefined` becomes `None`; a thrown `Error(message)` becomes `Err(message)`. */
module Wrappers {

  datatype Option<+T> = None | Some(value: T) {
    function GetOr(default: T): T {
      match this
      case Some(v) => v
      case None => default
    }
  }

  datatype Result<+T> = Ok(value: T) | Err(error: string)
}
