/** The popup's ticket query: a configuration check, a GET search, one POST retry when GET is
    not allowed, and one simplified fallback query when the tracker rejects the query. The
    network is a sequence of replies, one per request in the order the requests are made. */
module Fetch {
  import opened Wrappers
  import opened Http
  import opened Tickets

  datatype Credentials = Credentials(jiraUrl: string, username: string, apiToken: string, projectKey: string)

  /** The search requests the popup can send. */
  datatype Request = SearchGet | SearchPost | FallbackPost

  /** Why the query threw; an API error carries the status of the primary query's reply. */
  datatype FetchError = MissingConfiguration | NetworkFailure | ApiError(status: int)

  /** The requests a run made and what it returned or threw. */
  datatype FetchRun = FetchRun(requests: seq<Request>, result: Result<seq<Ticket>, FetchError>)

  type SearchReply = Reply<seq<Issue>>

  /** A field left empty or unset is falsy. */
  predicate Configured(c: Credentials) {
    c.jiraUrl != "" && c.username != "" && c.apiToken != "" && c.projectKey != ""
  }

  /** The GET was answered with "method not allowed". */
  predicate GetNotAllowed(replies: seq<SearchReply>) {
    var get := ReplyAt(replies, 0);
    get.Response? && get.status == 405
  }

  /** Where the primary query's final reply sits: the POST retry's when GET was refused,
      otherwise the GET's. */
  function PrimaryIndex(replies: seq<SearchReply>): nat {
    if GetNotAllowed(replies) then 1 else 0
  }

  /** The primary query was answered and rejected as a bad request. */
  predicate PrimaryBadRequest(replies: seq<SearchReply>) {
    var primary := ReplyAt(replies, PrimaryIndex(replies));
    primary.Response? && primary.status == 400
  }

  /** How a run ends once the primary query has a reply. */
  function Conclude(sent: seq<Request>, primary: SearchReply, fallback: SearchReply): (run: FetchRun)
    requires primary.Response?
    ensures run.requests == if primary.status == 400 then sent + [FallbackPost] else sent
    ensures var answered := if primary.status == 400 then fallback else primary;
      && (run.result.Ok? <==> Succeeded(answered))
      && (run.result == Err(NetworkFailure) <==> answered.NoResponse?)
      && (run.result.Ok? ==> run.result.value == NormaliseAll(answered.body, primary.status == 400))
      && (run.result.Err? && answered.Response? ==> run.result == Err(ApiError(primary.status)))
  {
    if IsOk(primary.status) then
      FetchRun(sent, Ok(NormaliseAll(primary.body, false)))
    else if primary.status == 400 then
      match fallback
      case NoResponse => FetchRun(sent + [FallbackPost], Err(NetworkFailure))
      case Response(status, issues) =>
        if IsOk(status) then FetchRun(sent + [FallbackPost], Ok(NormaliseAll(issues, true)))
        else FetchRun(sent + [FallbackPost], Err(ApiError(primary.status)))
    else
      FetchRun(sent, Err(ApiError(primary.status)))
  }

  /** `fetchJiraTickets`: the control flow of one query run. */
  function FetchTickets(c: Credentials, replies: seq<SearchReply>): (run: FetchRun)
    ensures !Configured(c) <==> run.result == Err(MissingConfiguration)
    ensures !Configured(c) ==> run.requests == []
    ensures Configured(c) ==>
      run.requests == [SearchGet] + (if GetNotAllowed(replies) then [SearchPost] else [])
                      + (if PrimaryBadRequest(replies) then [FallbackPost] else [])
    ensures Configured(c) ==>
      var answered := ReplyAt(replies, |run.requests| - 1);
      && (run.result.Ok? <==> Succeeded(answered))
      && (run.result == Err(NetworkFailure) <==> answered.NoResponse?)
      && (run.result.Ok? ==> run.result.value == NormaliseAll(answered.body, FallbackPost in run.requests))
    ensures run.result.Ok? ==>
      forall t :: t in run.result.value ==>
        t.hours == 0.0 && t.percentage == 0.0 && t.fromFallback == (FallbackPost in run.requests)
    ensures run.result.Err? && run.result.error.ApiError? ==>
      var primary := ReplyAt(replies, PrimaryIndex(replies));
      primary.Response? && run.result.error.status == primary.status && !IsOk(primary.status)
  {
    if !Configured(c) then
      FetchRun([], Err(MissingConfiguration))
    else
      var get := ReplyAt(replies, 0);
      if get.NoResponse? then
        FetchRun([SearchGet], Err(NetworkFailure))
      else if !IsOk(get.status) && get.status == 405 then
        var post := ReplyAt(replies, 1);
        if post.NoResponse? then FetchRun([SearchGet, SearchPost], Err(NetworkFailure))
        else Conclude([SearchGet, SearchPost], post, ReplyAt(replies, 2))
      else
        Conclude([SearchGet], get, ReplyAt(replies, 1))
  }

  /** When the fallback query is answered with an error too, the error reported is the
      primary query's, never the fallback's. */
  lemma FallbackFailureReportsPrimary(c: Credentials, replies: seq<SearchReply>)
    requires Configured(c) && PrimaryBadRequest(replies)
    requires var fallback := ReplyAt(replies, PrimaryIndex(replies) + 1);
      fallback.Response? && !IsOk(fallback.status)
    ensures FetchTickets(c, replies).result == Err(ApiError(400))
  {
  }

  /** A 405 on GET followed by a 400 on the POST retry still makes exactly one fallback
      query, and its tickets are all tagged as fallback results. */
  lemma RetryThenFallback(c: Credentials, issues: seq<Issue>, other: seq<Issue>)
    requires Configured(c)
    ensures var run := FetchTickets(c, [Response(405, []), Response(400, []), Response(200, issues)]);
      run.requests == [SearchGet, SearchPost, FallbackPost]
      && run.result == Ok(NormaliseAll(issues, true))
  {
  }
}
