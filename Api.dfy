// api_error.go: the JSON error reply of the HTTP handlers. The reply is
// reduced to its status and its cause text; the description (the status
// text) and the JSON encoding are not modelled.

module Api {
  import opened Errors

  /** The cause handed to ApiError: a plain string or an error value. */
  datatype Cause = Text(text: string) | Failure(err: Error)

  /** The JSON error reply: its status and its "cause" text ("" when absent). */
  datatype Reply = Reply(status: int, cause: string)

  /** ApiError(w, r, cause, status): an error carrying a status replaces the given status. */
  function ApiError(cause: Cause, status: int): (r: Reply)
    ensures cause.Text? ==> r == Reply(status, cause.text)
    ensures cause.Failure? && Status(cause.err).1 ==> r == Reply(Status(cause.err).0, Message(cause.err))
    ensures cause.Failure? && !Status(cause.err).1 ==> r == Reply(status, Message(cause.err))
  {
    match cause
    case Text(s) => Reply(status, s)
    case Failure(e) =>
      var (es, ok) := Status(e);
      Reply(if ok then es else status, Message(e))
  }

  /** A status an error carries always wins over the status the handler asked for. */
  lemma ErrorStatusWins(err: Error, s1: int, s2: int)
    requires Status(err).1
    ensures ApiError(Failure(err), s1) == ApiError(Failure(err), s2)
  {
  }
}
