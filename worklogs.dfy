/** Submitting the day's allocation: one worklog per row with positive hours, posted one after
    the other in row order, stopping at the first request that fails. The network is a
    sequence of replies, one per worklog request in the order the requests are made. */
module Worklogs {
  import opened Wrappers
  import opened Http
  import opened Tickets

  /** The part of a worklog request the model keeps: the issue and the whole seconds logged. */
  datatype Worklog = Worklog(issueKey: string, timeSpentSeconds: int)

  /** How a submission ends. A failed request carries the issue and the status of its reply,
      or `None` when `fetch` itself rejected. */
  datatype SubmitOutcome = AllLogged | LogFailed(issueKey: string, status: Option<int>)

  type LogReply = Reply<()>

  /** `Math.round`: the nearest integer, halves rounded up. */
  function Round(x: real): (n: int)
    ensures n as real - 0.5 <= x < n as real + 0.5
  {
    (x + 0.5).Floor
  }

  /** The worklog for one row: its hours in seconds, rounded to the nearest second. */
  function WorklogFor(t: Ticket): (w: Worklog)
    ensures w.issueKey == t.key
    ensures w.timeSpentSeconds as real - 0.5 <= t.hours * SecondsPerHour < w.timeSpentSeconds as real + 0.5
  {
    Worklog(t.key, Round(t.hours * SecondsPerHour))
  }

  /** `tickets.filter(t => t.hours > 0)`. */
  function Active(ts: seq<Ticket>): (r: seq<Ticket>)
    ensures |r| <= |ts|
  {
    if ts == [] then []
    else (if ts[0].hours > 0.0 then [ts[0]] else []) + Active(ts[1..])
  }

  /** The requests a submission makes if none fails, in row order. */
  function Plan(ts: seq<Ticket>): (plan: seq<Worklog>)
    ensures |plan| == |Active(ts)|
    ensures forall i :: 0 <= i < |plan| ==> plan[i] == WorklogFor(Active(ts)[i])
  {
    var active := Active(ts);
    seq(|active|, i requires 0 <= i < |active| => WorklogFor(active[i]))
  }

  /** The filter keeps exactly the rows with positive hours. */
  lemma {:induction false} ActiveMembers(ts: seq<Ticket>, t: Ticket)
    ensures t in Active(ts) <==> t in ts && t.hours > 0.0
  {
    if ts != [] {
      ActiveMembers(ts[1..], t);
      assert ts == [ts[0]] + ts[1..];
    }
  }

  /** The filter keeps the rows' order: filtering two runs of rows one after the other is
      filtering each and putting the results one after the other. */
  lemma {:induction false} ActiveKeepsOrder(a: seq<Ticket>, b: seq<Ticket>)
    ensures Active(a + b) == Active(a) + Active(b)
  {
    if a == [] {
      assert a + b == b;
    } else {
      var head := if a[0].hours > 0.0 then [a[0]] else [];
      assert (a + b)[0] == a[0] && (a + b)[1..] == a[1..] + b;
      assert Active(a + b) == head + Active(a[1..] + b);
      ActiveKeepsOrder(a[1..], b);
      assert Active(a) == head + Active(a[1..]);
    }
  }

  /** Nothing is submitted exactly when no row has positive hours. */
  lemma {:induction false} PlanEmptyIffNothingPositive(ts: seq<Ticket>)
    ensures Plan(ts) == [] <==> forall i :: 0 <= i < |ts| ==> ts[i].hours <= 0.0
  {
    if ts != [] {
      PlanEmptyIffNothingPositive(ts[1..]);
      assert forall i :: 1 <= i < |ts| ==> ts[i] == ts[1..][i - 1];
    }
  }

  /** The first of the requests `from .. n - 1` whose reply is not a success, or `n` when all
      succeed. */
  function FirstFailureFrom(n: nat, replies: seq<LogReply>, from: nat): (k: nat)
    requires from <= n
    ensures from <= k <= n
    ensures forall j :: from <= j < k ==> Succeeded(ReplyAt(replies, j))
    ensures k < n ==> !Succeeded(ReplyAt(replies, k))
    decreases n - from
  {
    if from == n then n
    else if !Succeeded(ReplyAt(replies, from)) then from
    else FirstFailureFrom(n, replies, from + 1)
  }

  function FirstFailure(n: nat, replies: seq<LogReply>): (k: nat)
    ensures k <= n
  {
    FirstFailureFrom(n, replies, 0)
  }

  /** The status a failed reply reports, or `None` for a rejected request. */
  function FailureStatus(r: LogReply): Option<int> {
    if r.Response? then Some(r.status) else None
  }

  /** How submitting `plan` ends. */
  function Submit(plan: seq<Worklog>, replies: seq<LogReply>): SubmitOutcome {
    var k := FirstFailure(|plan|, replies);
    if k == |plan| then AllLogged
    else LogFailed(plan[k].issueKey, FailureStatus(ReplyAt(replies, k)))
  }

  /** The requests actually made: every one up to and including the first that fails. */
  function Sent(plan: seq<Worklog>, replies: seq<LogReply>): (sent: seq<Worklog>)
    ensures |sent| <= |plan| && sent == plan[..|sent|]
  {
    var k := FirstFailure(|plan|, replies);
    if k == |plan| then plan else plan[..k + 1]
  }

  /** The `for … of` loop of `submitWorkLogs`: post each worklog of `plan` in turn and stop
      at the first request that fails. */
  method PostWorklogs(plan: seq<Worklog>, replies: seq<LogReply>) returns (sent: seq<Worklog>, outcome: SubmitOutcome)
    ensures sent == Sent(plan, replies)
    ensures outcome == Submit(plan, replies)
  {
    sent := [];
    var i := 0;
    while i < |plan|
      invariant 0 <= i <= |plan|
      invariant sent == plan[..i]
      invariant FirstFailureFrom(|plan|, replies, i) == FirstFailure(|plan|, replies)
    {
      sent := sent + [plan[i]];
      var reply := ReplyAt(replies, i);
      if !Succeeded(reply) {
        return sent, LogFailed(plan[i].issueKey, FailureStatus(reply));
      }
      i := i + 1;
    }
    return sent, AllLogged;
  }

  /** A submission logs everything exactly when every request succeeds; then every planned
      worklog was sent. */
  lemma AllLoggedIffEverySucceeds(plan: seq<Worklog>, replies: seq<LogReply>)
    ensures Submit(plan, replies) == AllLogged
        <==> forall j :: 0 <= j < |plan| ==> Succeeded(ReplyAt(replies, j))
    ensures Submit(plan, replies) == AllLogged ==> Sent(plan, replies) == plan
  {
  }

  /** A failed submission stops at its first failing request: the requests before it all
      succeeded, it is the last request made, the outcome names its issue, and no later
      worklog is sent. */
  lemma StopsAtFirstFailure(plan: seq<Worklog>, replies: seq<LogReply>)
    requires Submit(plan, replies).LogFailed?
    ensures var sent := Sent(plan, replies);
      && 0 < |sent| <= |plan| && sent == plan[..|sent|]
      && (forall j :: 0 <= j < |sent| - 1 ==> Succeeded(ReplyAt(replies, j)))
      && !Succeeded(ReplyAt(replies, |sent| - 1))
      && Submit(plan, replies).issueKey == sent[|sent| - 1].issueKey
  {
  }

  /** The worked case: rows of 2, 0 and 3 hours submit two worklogs, 7200 and 10800 seconds,
      and a rejection of the first one leaves the third unsent. */
  lemma SubmitExample(a: Ticket, b: Ticket, c: Ticket)
    requires a.hours == 2.0 && b.hours == 0.0 && c.hours == 3.0
    ensures Plan([a, b, c]) == [Worklog(a.key, 7200), Worklog(c.key, 10800)]
    ensures Sent(Plan([a, b, c]), [Response(401, ())]) == [Worklog(a.key, 7200)]
    ensures Submit(Plan([a, b, c]), [Response(401, ())]) == LogFailed(a.key, Some(401))
  {
    assert [a, b, c][1..] == [b, c];
    assert [b, c][1..] == [c];
    assert [c][1..] == [];
    assert Active([c]) == [c] + Active([]);
    assert Active([b, c]) == [c];
    assert Active([a, b, c]) == [a] + [c];
  }
}
