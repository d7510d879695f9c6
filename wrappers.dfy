/** Nullable references of the source, and the exceptions its guards throw. */
module Wrappers {

  /** A C# reference that may be null: `None` is null. */
  datatype Option<+T> = None | Some(value: T) {

    /** The `??` operator: this value, or `default` when it is null. */
    function GetOr(default: T): T {
      match this
      case Some(v) => v
      case None => default
    }
  }

  /** The exceptions the modelled code throws or lets escape. */
  datatype Exception =
    | ArgumentException(message: string)
    | ArgumentNullException
    | NullReferenceException
    | NotImplementedException
    | InvalidOperationException   // a TaskCompletionSource completed twice

  /** The outcome of a call that may throw. */
  datatype Checked<+T> = Returned(value: T) | Threw(exception: Exception)
}
