/** Option, Result and the error values of the provider.

    Go errors are built with `errors.New`, `fmt.Errorf("%s: %w", ...)` and
    `fmt.Errorf("%w: %s", ...)`; the `Error` datatype keeps those three shapes
    apart so that "returned unchanged" and "wrapped" can be told apart. */
module Outcomes {

  datatype Option<+T> = None | Some(value: T)

  datatype Result<+R, +E> = Success(value: R) | Failure(error: E)

  datatype Error =
    | Text(msg: string)                        // errors.New(msg), or an error from a collaborator
    | Wrapped(prefix: string, cause: Error)    // fmt.Errorf("<prefix>: %w", cause)
    | Annotated(cause: Error, detail: string)  // fmt.Errorf("%w: <detail>", cause)
  {
    /** The text `Error()` returns. */
    function Message(): string {
      match this
      case Text(m) => m
      case Wrapped(p, c) => p + ": " + c.Message()
      case Annotated(c, d) => c.Message() + ": " + d
    }

    /** `errors.Is(this, target)`: target is this error or one it wraps. */
    predicate Is(target: Error) {
      this == target ||
      match this
      case Text(_) => false
      case Wrapped(_, c) => c.Is(target)
      case Annotated(c, _) => c.Is(target)
    }
  }
}
