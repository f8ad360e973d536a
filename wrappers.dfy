/** Failure-carrying values shared by every module, and the error wrapping
    the service uses (github.com/pkg/errors). */
module Wrappers {

  /** A value that may be absent: a nil pointer, an unset optional field. */
  datatype Option<+T> = None | Some(value: T)

  /** A Go `(value, error)` pair in which exactly one side is meaningful. */
  datatype Result<+R, +E> = Success(value: R) | Failure(error: E)

  /** The message of `errors.Wrap(cause, context)`: the context, a colon and
      a space, then the cause's own message. */
  function Wrap(context: string, cause: string): (msg: string)
    ensures |msg| == |context| + 2 + |cause|
    ensures msg[..|context|] == context && msg[|context| + 2..] == cause
    ensures msg[|context|..|context| + 2] == ": "
  {
    context + ": " + cause
  }
}
