/** The ticket record of the popup, how a search result becomes one, and the two pure rules
    read off a ticket: why it is listed for today and whether a new entry overruns its estimate. */
module Tickets {
  import opened Wrappers
  import opened Text

  /** One issue as the issue tracker's search returns it; the three times are in seconds and
      `None` when the tracker sends null or leaves them out. */
  datatype Issue = Issue(
    key: string,
    summary: string,
    statusName: string,
    updated: string,
    timeOriginalEstimate: Option<int>,
    timeSpent: Option<int>,
    timeEstimate: Option<int>)

  /** One row of the allocation session. Times are hours; `hours` and `percentage` are the
      two views of today's allocation that the session edits. */
  datatype Ticket = Ticket(
    key: string,
    summary: string,
    status: string,
    updated: string,
    originalEstimate: real,
    timeSpent: real,
    remainingEstimate: real,
    hours: real,
    percentage: real,
    fromFallback: bool)

  const SecondsPerHour: real := 3600.0

  /** A tracker time in hours; an absent or zero time (both falsy) is 0. */
  function SecondsToHours(seconds: Option<int>): (h: real)
    ensures seconds.Some? ==> h * SecondsPerHour == seconds.value as real
    ensures seconds.None? ==> h == 0.0
  {
    if seconds.Some? && seconds.value != 0 then seconds.value as real / SecondsPerHour else 0.0
  }

  /** The record built for one issue: times converted to hours, nothing allocated yet, and
      tagged with the query it came from. */
  function Normalise(issue: Issue, fromFallback: bool): (t: Ticket)
    ensures t.key == issue.key && t.summary == issue.summary
    ensures t.status == issue.statusName && t.updated == issue.updated
    ensures t.originalEstimate == SecondsToHours(issue.timeOriginalEstimate)
    ensures t.timeSpent == SecondsToHours(issue.timeSpent)
    ensures t.remainingEstimate == SecondsToHours(issue.timeEstimate)
    ensures t.hours == 0.0 && t.percentage == 0.0
    ensures t.fromFallback == fromFallback
  {
    Ticket(issue.key, issue.summary, issue.statusName, issue.updated,
           SecondsToHours(issue.timeOriginalEstimate), SecondsToHours(issue.timeSpent),
           SecondsToHours(issue.timeEstimate), 0.0, 0.0, fromFallback)
  }

  /** `issues.map(...)`: one ticket per issue, in the order of the search result. */
  function NormaliseAll(issues: seq<Issue>, fromFallback: bool): (ts: seq<Ticket>)
    ensures |ts| == |issues|
    ensures forall i :: 0 <= i < |ts| ==> ts[i] == Normalise(issues[i], fromFallback)
  {
    seq(|issues|, i requires 0 <= i < |issues| => Normalise(issues[i], fromFallback))
  }

  /** Converting a tracker time to hours and back to whole seconds, as a worklog does,
      gives the tracker's value again. */
  lemma HoursBackToSeconds(s: int)
    ensures (SecondsToHours(Some(s)) * SecondsPerHour + 0.5).Floor == s
  {
    assert SecondsToHours(Some(s)) * SecondsPerHour == s as real;
  }

  /** The trimmed, non-empty pieces, in order. */
  function TrimmedNonEmpty(pieces: seq<string>): (list: seq<string>)
    ensures |list| <= |pieces|
  {
    if pieces == [] then []
    else
      var t := Trim(pieces[0]);
      (if t != [] then [t] else []) + TrimmedNonEmpty(pieces[1..])
  }

  /** `(raw || '').split(',').map(s => s.trim()).filter(s => s)`: the configured status names. */
  function StatusList(raw: string): seq<string> {
    TrimmedNonEmpty(Split(raw, ','))
  }

  lemma {:induction false} TrimmedNonEmptyMembers(pieces: seq<string>, x: string)
    ensures x in TrimmedNonEmpty(pieces) <==> x != [] && exists p :: p in pieces && Trim(p) == x
  {
    if pieces != [] {
      TrimmedNonEmptyMembers(pieces[1..], x);
      assert forall p :: p in pieces <==> p == pieces[0] || p in pieces[1..];
    }
  }

  /** The status list holds exactly the non-empty trimmed comma-separated entries. */
  lemma StatusListMembers(raw: string, x: string)
    ensures x in StatusList(raw) <==> x != [] && exists p :: p in Split(raw, ',') && Trim(p) == x
    ensures x in StatusList(raw) ==> IsTrimmed(x) && ',' !in x
  {
    TrimmedNonEmptyMembers(Split(raw, ','), x);
    if x in StatusList(raw) {
      var p :| p in Split(raw, ',') && Trim(p) == x;
      TrimIsTrimmed(p);
      SplitPiecesAvoidSeparator(raw, ',');
      TrimSubstring(p);
    }
  }

  lemma TrimSubstring(p: string)
    ensures forall c :: c in Trim(p) ==> c in p
  {
    var t := TrimStart(p);
    TrimStartDropsSpace(p);
    TrimEndDropsSpace(t);
    assert forall c :: c in t ==> c in p;
  }

  /** The status matches a configured entry, ignoring letter case. */
  predicate IsPrimaryStatus(status: string, primary: seq<string>) {
    exists i :: 0 <= i < |primary| && ToLower(primary[i]) == ToLower(status)
  }

  /** The date part of an `updated` timestamp: the text before the first 'T'. */
  function DatePart(updated: string): (date: string)
    ensures updated == "" ==> date == ""
    ensures updated != "" ==> date == Split(updated, 'T')[0]
    ensures 'T' !in date && StartsWith(updated, date)
  {
    BeforeFirstIsFirstPiece(updated, 'T');
    if updated == "" then "" else BeforeFirst(updated, 'T')
  }

  /** Why a listed ticket is there, as shown beside it. */
  datatype Reason = ActiveWork | ActiveToday | FallbackQuery | CheckLogic

  /** The classifier, in priority order: a primary status, then an update today, then the
      fallback origin, and otherwise a sign that the query and this rule disagree. */
  function StatusReason(t: Ticket, primaryStatuses: string, today: string): (r: Reason)
    ensures r == ActiveWork <==> IsPrimaryStatus(t.status, StatusList(primaryStatuses))
    ensures r == ActiveToday <==>
      !IsPrimaryStatus(t.status, StatusList(primaryStatuses)) && DatePart(t.updated) == today
    ensures r == FallbackQuery <==>
      !IsPrimaryStatus(t.status, StatusList(primaryStatuses)) && DatePart(t.updated) != today
      && t.fromFallback
    ensures r == CheckLogic <==>
      !IsPrimaryStatus(t.status, StatusList(primaryStatuses)) && DatePart(t.updated) != today
      && !t.fromFallback
  {
    var primary := StatusList(primaryStatuses);
    if |primary| > 0 && IsPrimaryStatus(t.status, primary) then ActiveWork
    else if DatePart(t.updated) == today then ActiveToday
    else if t.fromFallback then FallbackQuery
    else CheckLogic
  }

  /** The letter case of the ticket's status never changes its reason. */
  lemma StatusReasonIgnoresCase(t: Ticket, primaryStatuses: string, today: string)
    ensures StatusReason(t.(status := ToLower(t.status)), primaryStatuses, today)
         == StatusReason(t, primaryStatuses, today)
  {
    ToLowerIdempotent(t.status);
  }

  /** With no status configured — an unset list, or one whose every entry is blank — no
      ticket is active work. */
  lemma EmptyStatusListNeverActiveWork(t: Ticket, raw: string, today: string)
    requires forall p :: p in Split(raw, ',') ==> Trim(p) == []
    ensures StatusList(raw) == []
    ensures StatusReason(t, raw, today) != ActiveWork
  {
    if StatusList(raw) != [] {
      var x := StatusList(raw)[0];
      StatusListMembers(raw, x);
      assert false;
    }
  }

  /** Entries that trim to non-empty names are read as exactly those names, in order. */
  lemma {:induction false} TrimmedNonEmptyOfNames(pieces: seq<string>, names: seq<string>)
    requires |pieces| == |names|
    requires forall i :: 0 <= i < |pieces| ==> Trim(pieces[i]) == names[i] && names[i] != []
    ensures TrimmedNonEmpty(pieces) == names
  {
    if pieces != [] {
      TrimmedNonEmptyOfNames(pieces[1..], names[1..]);
      assert names == [names[0]] + names[1..];
    }
  }

  /** A comma-separated list whose entries trim to non-empty names reads back as those
      names: the status list is the inverse of writing the names out. */
  lemma StatusListReadsNames(pieces: seq<string>, names: seq<string>)
    requires |pieces| >= 1 && |pieces| == |names|
    requires forall i :: 0 <= i < |pieces| ==> ',' !in pieces[i] && Trim(pieces[i]) == names[i] && names[i] != []
    ensures StatusList(Join(pieces, ',')) == names
  {
    JoinSplit(pieces, ',');
    TrimmedNonEmptyOfNames(pieces, names);
  }

  /** The worked case: "In Progress, Review" lists the two statuses, the blank after the
      comma trimmed away. */
  lemma StatusListExample()
    ensures StatusList("In Progress, Review") == ["In Progress", "Review"]
  {
    var pieces := ["In Progress", " Review"];
    assert Trim("In Progress") == "In Progress" by {
      TrimRemovesPadding([], "In Progress", []);
      assert [] + "In Progress" + [] == "In Progress";
    }
    assert Trim(" Review") == "Review" by {
      TrimRemovesPadding(" ", "Review", []);
      assert " " + "Review" + [] == " Review";
    }
    assert Join(pieces, ',') == "In Progress, Review" by {
      assert pieces[1..] == [" Review"];
    }
    StatusListReadsNames(pieces, ["In Progress", "Review"]);
  }

  /** What the estimate check reports for a proposed entry. */
  datatype CapacityWarning = NoWarning | Exceeds(overage: real, totalAfter: real)

  /** The capacity check of one ticket for `newHours` more hours. */
  function CheckCapacity(t: Ticket, newHours: real): (w: CapacityWarning)
    ensures w.Exceeds? <==> t.originalEstimate > 0.0 && t.timeSpent + newHours > t.originalEstimate
    ensures w.Exceeds? ==>
      (w.totalAfter == t.timeSpent + newHours && w.overage > 0.0
       && w.totalAfter == t.originalEstimate + w.overage)
  {
    var totalAfter := t.timeSpent + newHours;
    if t.originalEstimate > 0.0 && totalAfter > t.originalEstimate then
      Exceeds(totalAfter - t.originalEstimate, totalAfter)
    else
      NoWarning
  }

  /** Proposing more hours never clears a warning, and the overage grows by the difference. */
  lemma CapacityMonotone(t: Ticket, h: real, h': real)
    requires h <= h'
    ensures CheckCapacity(t, h).Exceeds? ==>
      (CheckCapacity(t, h').Exceeds?
       && CheckCapacity(t, h').overage - CheckCapacity(t, h).overage == h' - h)
  {
  }
}
