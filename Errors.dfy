// errors/errors.go: errors that may carry an HTTP status code.
//
// An error is either a plain error (errors.New, or an error of another
// package) or an `httperror` with a status. Printf-style formatting is not
// modelled: the `...f` variants take their already formatted text.

module Errors {
  import opened GoStrings

  datatype Error = Plain(text: string) | Http(text: string, status: int)

  /** err.Error() */
  function Message(err: Error): string
  {
    err.text
  }

  /** Status(err): the carried status, or (0, false) for an error without one. */
  function Status(err: Error): (r: (int, bool))
    ensures r.1 <==> err.Http?
    ensures !r.1 ==> r.0 == 0
  {
    match err
    case Plain(_) => (0, false)
    case Http(_, status) => (status, true)
  }

  /** New(text): the trimmed text and no status. */
  function New(text: string): (err: Error)
    ensures Message(err) == TrimSpace(text)
    ensures Status(err) == (0, false)
  {
    Plain(TrimSpace(text))
  }

  /** Newf over its formatted text. */
  function Newf(formatted: string): (err: Error)
    ensures Message(err) == TrimSpace(formatted)
    ensures Status(err) == (0, false)
  {
    New(formatted)
  }

  /** NewWith(status, text): the trimmed text and the given status. */
  function NewWith(status: int, text: string): (err: Error)
    ensures Message(err) == TrimSpace(text)
    ensures Status(err) == (status, true)
  {
    Http(TrimSpace(text), status)
  }

  /** WithStatus(status, err): err's message (trimmed again) with status, replacing any old one. */
  function WithStatus(status: int, err: Error): (r: Error)
    ensures Message(r) == TrimSpace(Message(err))
    ensures Status(r) == (status, true)
  {
    NewWith(status, Message(err))
  }

  /** NewfWith over its formatted text. */
  function NewfWith(status: int, formatted: string): (err: Error)
    ensures Message(err) == TrimSpace(formatted)
    ensures Status(err) == (status, true)
  {
    TrimSpaceIdempotent(formatted);
    WithStatus(status, Newf(formatted))
  }

  /** The text Wrap gives to its result before trimming. */
  function Annotated(text: string, cause: Error): string
  {
    text + ": " + Message(cause)
  }

  /** Wrap(cause, text): annotated message; the cause's status, if any, is kept. */
  function Wrap(cause: Error, text: string): (err: Error)
    ensures Message(err) == TrimSpace(Annotated(text, cause))
    ensures Status(err) == Status(cause)
  {
    var w := Annotated(text, cause);
    match Status(cause)
    case (status, true) => NewWith(status, w)
    case (_, false) => New(w)
  }

  /** WrapWith(status, cause, text): annotated message with exactly the given status. */
  function WrapWith(status: int, cause: Error, text: string): (err: Error)
    ensures Message(err) == TrimSpace(Annotated(text, cause))
    ensures Status(err) == (status, true)
  {
    TrimSpaceIdempotent(Annotated(text, cause));
    WithStatus(status, Wrap(cause, text))
  }

  /** Wrapf over its formatted text. */
  function Wrapf(cause: Error, formatted: string): (err: Error)
    ensures Message(err) == TrimSpace(Annotated(formatted, cause))
    ensures Status(err) == Status(cause)
  {
    Wrap(cause, formatted)
  }

  /** WrapfWith over its formatted text. */
  function WrapfWith(status: int, cause: Error, formatted: string): (err: Error)
    ensures Message(err) == TrimSpace(Annotated(formatted, cause))
    ensures Status(err) == (status, true)
  {
    TrimSpaceIdempotent(Annotated(formatted, cause));
    WithStatus(status, Wrapf(cause, formatted))
  }

  /** Every error this package builds has a trimmed message. */
  predicate Trimmed(err: Error)
  {
    TrimSpace(Message(err)) == Message(err)
  }

  /** WithStatus keeps the message of an error of this package exactly. */
  lemma WithStatusKeepsMessage(status: int, err: Error)
    requires Trimmed(err)
    ensures Message(WithStatus(status, err)) == Message(err)
  {
  }

  /** The last WithStatus wins. */
  lemma WithStatusOverrides(s1: int, s2: int, err: Error)
    ensures WithStatus(s2, WithStatus(s1, err)) == WithStatus(s2, err)
  {
    TrimSpaceIdempotent(Message(err));
  }

  /** Errors built by New, NewWith, Wrap and WithStatus are trimmed. */
  lemma ConstructorsTrimmed(status: int, text: string, cause: Error)
    ensures Trimmed(New(text)) && Trimmed(NewWith(status, text))
    ensures Trimmed(Wrap(cause, text)) && Trimmed(WithStatus(status, cause))
  {
    TrimSpaceIdempotent(text);
    TrimSpaceIdempotent(Annotated(text, cause));
    TrimSpaceIdempotent(Message(cause));
  }
}
