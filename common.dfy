/** Option and the success/failure value that Kotlin's `Result` carries. */
module Common {

  datatype Option<+T> = None | Some(value: T) {
    /** Kotlin's elvis operator `x ?: default`. */
    function GetOr(default: T): T {
      match this
      case Some(v) => v
      case None => default
    }
  }

  /**
   * A Kotlin `Result<T>`: either a value or a failure carrying an exception
   * whose `message` may be null.
   */
  datatype Outcome<+T> = Ok(value: T) | Fail(message: Option<string>) {
    /** `error.message ?: default`, as the view models read a failure. */
    function MessageOr(default: string): string
      requires Fail?
    {
      message.GetOr(default)
    }
  }
}
