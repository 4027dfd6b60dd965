/** Failure-carrying result types shared by every module of the model. */
module Wrappers {

  /** A value that may be absent: the model's rendering of JavaScript `undefined` for typed fields. */
  datatype Option<+T> = None | Some(value: T) {
    function GetOr(default: T): T {
      match this
      case Some(v) => v
      case None => default
    }
  }

  /**
   * The outcome of a step that can throw. `Err` carries the message that the
   * source's `catch` blocks read as `err.message`.
   */
  datatype Result<+T> = Ok(value: T) | Err(message: string)
}
