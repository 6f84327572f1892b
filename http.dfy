/** What the extension sees of one HTTP request: a response with a status and a decoded body,
    or no response at all because `fetch` itself rejected (transport failure). */
module Http {
  datatype Reply<+T> = Response(status: int, body: T) | NoResponse

  /** `response.ok` in the Fetch API. */
  predicate IsOk(status: int) {
    200 <= status <= 299
  }

  /** The reply to the `i`-th request of a run; a run with fewer replies than requests
      stands for requests that never got a response. */
  function ReplyAt<T>(replies: seq<Reply<T>>, i: nat): (r: Reply<T>)
    ensures i < |replies| ==> r == replies[i]
    ensures i >= |replies| ==> r.NoResponse?
  {
    if i < |replies| then replies[i] else NoResponse
  }

  /** True when the reply is a response whose status is ok. */
  predicate Succeeded<T>(r: Reply<T>) {
    r.Response? && IsOk(r.status)
  }
}
