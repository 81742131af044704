/** Failure-carrying wrappers used across the model: `Option` for the
    source's `Option<T>`, `Result` for its `anyhow::Result<T>`. */
module Common {

  datatype Option<+T> = None | Some(value: T) {
    function GetOr(default: T): T {
      match this
      case Some(v) => v
      case None => default
    }
  }

  datatype Result<+T> = Ok(value: T) | Err(error: string)
}
