/** Outcomes of calls to the remote API, and how the stores turn a failure
    into the message they keep in their `error` field. Every call of a domain
    service (AuthService, CategoryService, ...) is an input of this type: the
    model does not perform the request, it is told how the request ended. */
module Remote {

  datatype Option<+T> = None | Some(value: T)

  /** A rejected request: `message` is the client-side `error.message`,
      `serverMessage` is `error.response.data.message` when the server sent one. */
  datatype Failure = Failure(message: string, serverMessage: Option<string>)

  /** How an awaited request ended: resolved with a payload, or rejected. */
  datatype Outcome<+T> = Ok(value: T) | Err(failure: Failure)

  /** `error.message || fallback`, the text the resource stores record.
      An empty message is falsy in JavaScript, so it gives way to the fallback. */
  function ClientText(f: Failure, fallback: string): (r: string)
    ensures r == f.message || r == fallback
    ensures f.message != "" ==> r == f.message
    ensures r == "" ==> fallback == ""
  {
    if f.message != "" then f.message else fallback
  }

  /** `error.response?.data?.message || fallback`, the text the session store
      records: the server's own message when it sent a non-empty one. */
  function ServerText(f: Failure, fallback: string): (r: string)
    ensures r == fallback || Some(r) == f.serverMessage
    ensures f.serverMessage.Some? && f.serverMessage.value != "" ==> r == f.serverMessage.value
    ensures r == "" ==> fallback == ""
  {
    match f.serverMessage
    case Some(m) => if m != "" then m else fallback
    case None => fallback
  }
}
