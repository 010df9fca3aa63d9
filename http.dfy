/**
 * What a task sees of one `URLSession.shared.data(for:)` call. The transport
 * itself is outside the model; a task's `run` is a function of this outcome.
 */
module Http {

  import opened Wrappers

  /** The parts of an `HTTPURLResponse` that the tasks read. */
  datatype HttpHead = HttpHead(status: int, abVersion: Option<string>)

  datatype Response =
    /** The call threw (no connection, timeout, cancelled). */
    | TransportError
    /** The call returned: the body decoded as a JSON string (None when it is not one)
        and the HTTP head (None when the response is not an `HTTPURLResponse`). */
    | Received(json: Option<string>, head: Option<HttpHead>)

  /** A response counts as delivered only when it is HTTP with status 200. */
  predicate Accepted(r: Response)
  {
    r.Received? && r.head.Some? && r.head.value.status == 200
  }
}
