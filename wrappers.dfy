/** Small result types shared by every module of the model. */
module Wrappers {

  /** A value that may be missing; stands for a C string that may be NULL. */
  datatype Option<+T> = None | Some(value: T) {

    /** The carried value, or `default` when there is none. */
    function GetOr(default: T): T {
      match this
      case Some(v) => v
      case None => default
    }
  }

  /**
   * How a C routine ends: it returns a value, or it terminates the whole
   * process with exit(EXIT_FAILURE).
   */
  datatype Status<+T> = Return(value: T) | ExitFailure
}
