/** Optional values and error-carrying results shared by every module of the model.
    `None` stands for the program's "N/A"/absent values; `Err` carries the message
    of an exception that the program raises. */
module Common {

  datatype Option<+T> = None | Some(value: T) {
    function GetOr(default: T): T {
      match this
      case Some(v) => v
      case None => default
    }
  }

  datatype Result<+T> = Ok(value: T) | Err(error: string)
}
