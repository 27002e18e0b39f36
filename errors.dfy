/** Error values of the provider and the small result types built on them.
    Go's `fmt.Errorf("context: %w", err)` keeps the cause inside the new error;
    `Wrapped` does the same, and `Message` renders the text `Error()` returns. */
module Errors {

  datatype Option<+T> = None | Some(value: T)

  /** An error as the provider's code builds it: a plain message, or a context
      string wrapped around the error it was given. */
  datatype Error = Raw(msg: string) | Wrapped(context: string, cause: Error)

  /** What a call that returns only `error` reports: nil or an error. */
  datatype Outcome = Pass | Fail(error: Error)

  /** What a call that returns a value and an error reports. */
  datatype Result<+T> = Ok(value: T) | Err(error: Error)

  /** The text of the error, as `Error()` renders a chain of `%w` wrappers. */
  function Message(e: Error): string
  {
    match e
    case Raw(m) => m
    case Wrapped(ctx, cause) => ctx + ": " + Message(cause)
  }

  /** A wrapped error's text starts with its context, so the stage that
      failed can be read off the front of the message. */
  lemma WrappedMessageNamesContext(ctx: string, cause: Error)
    ensures Message(Wrapped(ctx, cause))[..|ctx|] == ctx
  {
    var m := Message(Wrapped(ctx, cause));
    assert m == ctx + (": " + Message(cause));
  }
}
