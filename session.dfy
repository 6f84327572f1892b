/** The popup: the three globals `tickets`, `totalHours` and `initialDistribution` that its
    handlers update in place, and the section it shows. Every handler is proved against the
    function in module Allocation that says what state it leaves. */
module Session {
  import opened Wrappers
  import opened Http
  import opened Tickets
  import opened Fetch
  import opened Allocation
  import opened Worklogs

  /** Why the popup shows its error section. */
  datatype PopupError = NoTicketsToday | FetchFailed(error: FetchError) | SubmitFailed(issueKey: string, status: Option<int>)

  /** The section of the popup on display. */
  datatype Section = Loading | SetupNeeded | TicketsShown | SuccessShown | ErrorShown(error: PopupError)

  /** What the handlers read besides the session: the stored distribution settings, today's
      date as `YYYY-MM-DD`, and the budget field's value as `parseFloat` reads it (`None` for
      text that is not a number). */
  datatype PopupInputs = PopupInputs(
    defaultHours: Option<real>,
    autoDistribution: string,
    primaryStatuses: string,
    today: string,
    totalField: Option<real>)

  /** `parseFloat(value) || 0`: text that is not a number reads as 0. */
  function FieldValue(parsed: Option<real>): real {
    if parsed.Some? then parsed.value else 0.0
  }

  /** The state a refresh leaves: the fetched rows, auto-distributed, when the query returns
      some; an empty list when it returns none; the old rows when it throws. */
  function AfterRefresh(s: Allocation, run: FetchRun, inputs: PopupInputs): Allocation {
    match run.result
    case Err(_) => s
    case Ok(ts) =>
      if ts == [] then s.(tickets := [])
      else AutoDistribute(s.(tickets := ts), inputs.defaultHours, inputs.autoDistribution,
                          inputs.primaryStatuses, inputs.today, FieldValue(inputs.totalField))
  }

  /** The section a refresh ends on. */
  function SectionAfterRefresh(run: FetchRun): Section {
    match run.result
    case Err(e) => ErrorShown(FetchFailed(e))
    case Ok(ts) => if ts == [] then ErrorShown(NoTicketsToday) else TicketsShown
  }

  /** The section a submission ends on. */
  function SectionAfterSubmit(outcome: SubmitOutcome): Section {
    match outcome
    case AllLogged => SuccessShown
    case LogFailed(key, status) => ErrorShown(SubmitFailed(key, status))
  }

  class AllocationSession {
    var tickets: seq<Ticket>
    var totalHours: real
    var initialDistribution: seq<real>
    var section: Section

    /** The session as a value. */
    function State(): Allocation
      reads this
    {
      Allocation(tickets, totalHours, initialDistribution)
    }

    /** A popup that has just opened: no rows, a 6-hour budget and no snapshot. */
    constructor ()
      ensures State() == Allocation([], InitialTotalHours, []) && section == Loading
    {
      tickets := [];
      totalHours := InitialTotalHours;
      initialDistribution := [];
      section := Loading;
    }

    /** `handleHoursChange` for row `index`: it fails, changing nothing, when the row does not
        exist; otherwise the row's hours become the field's value and the percentage follows. */
    method HandleHoursChange(index: int, field: Option<real>) returns (ok: bool)
      modifies this
      ensures ok <==> 0 <= index < |old(tickets)|
      ensures ok ==> State() == SetHours(old(State()), index, FieldValue(field))
      ensures !ok ==> State() == old(State())
      ensures section == old(section)
    {
      if !(0 <= index < |tickets|) {
        return false;
      }
      var hours := FieldValue(field);
      var t := tickets[index].(hours := hours);
      t := t.(percentage := PercentOf(hours, totalHours));
      tickets := tickets[index := t];
      ok := true;
    }

    /** `handlePercentageChange` for row `index`: the row's percentage becomes the slider's
        value and the hours follow. */
    method HandlePercentageChange(index: int, percentage: real) returns (ok: bool)
      modifies this
      ensures ok <==> 0 <= index < |old(tickets)|
      ensures ok ==> State() == SetPercentage(old(State()), index, percentage)
      ensures !ok ==> State() == old(State())
      ensures section == old(section)
    {
      if !(0 <= index < |tickets|) {
        return false;
      }
      var t := tickets[index].(percentage := percentage);
      t := t.(hours := HoursOf(percentage, totalHours));
      tickets := tickets[index := t];
      ok := true;
    }

    /** `updateTotalHours` with the budget field's value. */
    method UpdateTotalHours(field: Option<real>)
      modifies this
      ensures State() == UpdateTotal(old(State()), FieldValue(field))
      ensures section == old(section)
    {
      var newTotal := FieldValue(field);
      if Abs(newTotal - totalHours) > BudgetTolerance {
        totalHours := newTotal;
        var i := 0;
        while i < |tickets|
          invariant 0 <= i <= |tickets| == |old(tickets)|
          invariant totalHours == newTotal && section == old(section)
          invariant initialDistribution == old(initialDistribution)
          invariant forall j :: 0 <= j < i ==>
            tickets[j] == old(tickets)[j].(hours := HoursOf(old(tickets)[j].percentage, newTotal))
          invariant forall j :: i <= j < |tickets| ==> tickets[j] == old(tickets)[j]
        {
          tickets := tickets[i := tickets[i].(hours := HoursOf(tickets[i].percentage, totalHours))];
          i := i + 1;
        }
        assert tickets == Rescaled(old(tickets), newTotal);
        initialDistribution := HoursList(tickets);
      }
    }

    /** `autoDistributeHours`: every row zeroed, each eligible row given an equal share of the
        stored default hours, then the budget field's value applied as `updateTotalHours`
        does. */
    method AutoDistributeHours(inputs: PopupInputs)
      modifies this
      ensures State() == AutoDistribute(old(State()), inputs.defaultHours, inputs.autoDistribution,
                                        inputs.primaryStatuses, inputs.today, FieldValue(inputs.totalField))
      ensures section == old(section)
    {
      var budget := DistributionBudget(inputs.defaultHours);
      var mode := DistributionMode(inputs.autoDistribution);
      var flags := EligibleFlags(tickets, mode, StatusList(inputs.primaryStatuses), inputs.today);
      var n := Count(flags);
      ghost var was := tickets;
      ZeroRows();
      if mode != "none" && n > 0 {
        GiveShares(flags, budget, n);
        assert forall j :: 0 <= j < |tickets| ==> tickets[j] == DistributedRow(was[j], flags[j], budget, n);
      } else {
        forall j | 0 <= j < |tickets|
          ensures tickets[j] == DistributedRow(was[j], flags[j], budget, n)
        {
          assert !flags[j] || n == 0;
        }
      }
      assert tickets == Distributed(was, budget, flags);
      UpdateTotalHours(inputs.totalField);
    }

    /** The first loop of `autoDistributeHours`: every row's hours and percentage set to 0. */
    method ZeroRows()
      modifies this
      ensures |tickets| == |old(tickets)|
      ensures forall j :: 0 <= j < |tickets| ==> tickets[j] == old(tickets)[j].(hours := 0.0, percentage := 0.0)
      ensures totalHours == old(totalHours) && section == old(section)
      ensures initialDistribution == old(initialDistribution)
    {
      var i := 0;
      while i < |tickets|
        invariant 0 <= i <= |tickets| == |old(tickets)|
        invariant totalHours == old(totalHours) && section == old(section)
        invariant initialDistribution == old(initialDistribution)
        invariant forall j :: 0 <= j < i ==> tickets[j] == old(tickets)[j].(hours := 0.0, percentage := 0.0)
        invariant forall j :: i <= j < |tickets| ==> tickets[j] == old(tickets)[j]
      {
        tickets := tickets[i := tickets[i].(hours := 0.0, percentage := 0.0)];
        i := i + 1;
      }
    }

    /** The second loop of `autoDistributeHours`: each flagged row gets `budget / n` hours and
        the matching percentage; the other rows stay as they are. */
    method GiveShares(flags: seq<bool>, budget: real, n: nat)
      requires |flags| == |tickets| && budget != 0.0 && n > 0
      modifies this
      ensures |tickets| == |old(tickets)|
      ensures forall j :: 0 <= j < |tickets| ==>
        tickets[j] == if flags[j] then old(tickets)[j].(hours := Share(budget, n),
                                                      percentage := SharePercentage(Share(budget, n), budget))
                      else old(tickets)[j]
      ensures totalHours == old(totalHours) && section == old(section)
      ensures initialDistribution == old(initialDistribution)
    {
      var share := Share(budget, n);
      var percentage := SharePercentage(share, budget);
      var i := 0;
      while i < |tickets|
        invariant 0 <= i <= |tickets| == |old(tickets)|
        invariant totalHours == old(totalHours) && section == old(section)
        invariant initialDistribution == old(initialDistribution)
        invariant forall j :: 0 <= j < i ==>
          tickets[j] == if flags[j] then old(tickets)[j].(hours := share, percentage := percentage) else old(tickets)[j]
        invariant forall j :: i <= j < |tickets| ==> tickets[j] == old(tickets)[j]
      {
        if flags[i] {
          tickets := tickets[i := tickets[i].(hours := share, percentage := percentage)];
        }
        i := i + 1;
      }
    }

    /** `resetDistribution`: every row back to its snapshot hours. */
    method ResetDistribution()
      modifies this
      ensures State() == Reset(old(State()))
      ensures section == old(section)
    {
      var i := 0;
      while i < |tickets|
        invariant 0 <= i <= |tickets| == |old(tickets)|
        invariant totalHours == old(totalHours) && section == old(section)
        invariant initialDistribution == old(initialDistribution)
        invariant forall j :: 0 <= j < i ==> tickets[j] == Restored(old(tickets), initialDistribution, totalHours)[j]
        invariant forall j :: i <= j < |tickets| ==> tickets[j] == old(tickets)[j]
      {
        var h := if i < |initialDistribution| && initialDistribution[i] != 0.0 then initialDistribution[i] else 0.0;
        tickets := tickets[i := tickets[i].(hours := h, percentage := PercentOf(h, totalHours))];
        i := i + 1;
      }
    }

    /** `updateBreakdown`'s totals, added up row by row. */
    method UpdateBreakdown() returns (b: Breakdown)
      ensures b == BreakdownOf(State())
    {
      var sum, estimated, logged, warnings := 0.0, 0.0, 0.0, 0;
      var i := 0;
      while i < |tickets|
        invariant 0 <= i <= |tickets|
        invariant sum == AllocatedHours(tickets[..i])
        invariant estimated == EstimatedHours(tickets[..i])
        invariant logged == LoggedHours(tickets[..i])
        invariant warnings == WarningCount(tickets[..i])
      {
        var t := tickets[i];
        assert tickets[..i + 1][..i] == tickets[..i];
        estimated := estimated + t.originalEstimate;
        logged := logged + t.timeSpent;
        if t.hours > 0.0 {
          sum := sum + t.hours;
          if t.originalEstimate > 0.0 && t.timeSpent + t.hours > t.originalEstimate {
            warnings := warnings + 1;
          }
        }
        i := i + 1;
      }
      assert tickets[..|tickets|] == tickets;
      b := Breakdown(sum, estimated, logged, warnings, totalHours - sum, sum == 0.0);
    }

    /** `refreshTickets`: one query run over `replies`, then the rows it returns. */
    method Refresh(c: Credentials, replies: seq<SearchReply>, inputs: PopupInputs)
      modifies this
      ensures State() == AfterRefresh(old(State()), FetchTickets(c, replies), inputs)
      ensures section == SectionAfterRefresh(FetchTickets(c, replies))
    {
      var run := FetchTickets(c, replies);
      match run.result {
        case Err(e) =>
          section := ErrorShown(FetchFailed(e));
        case Ok(ts) =>
          tickets := ts;
          if |ts| == 0 {
            section := ErrorShown(NoTicketsToday);
          } else {
            AutoDistributeHours(inputs);
            section := TicketsShown;
          }
      }
    }

    /** `initializePopup`: the setup section when the tracker address or the token is unset,
        a refresh otherwise. */
    method Initialize(c: Credentials, replies: seq<SearchReply>, inputs: PopupInputs)
      modifies this
      ensures c.jiraUrl == "" || c.apiToken == "" ==> State() == old(State()) && section == SetupNeeded
      ensures c.jiraUrl != "" && c.apiToken != "" ==>
        && State() == AfterRefresh(old(State()), FetchTickets(c, replies), inputs)
        && section == SectionAfterRefresh(FetchTickets(c, replies))
    {
      if c.jiraUrl == "" || c.apiToken == "" {
        section := SetupNeeded;
      } else {
        Refresh(c, replies, inputs);
      }
    }

    /** `submitWorkLogs`: the worklogs of the rows with positive hours, posted in order until
        one fails. The rows are left as they are; `remindersCleared` says whether the popup
        asks the background to clear today's reminder, which it does only when every worklog
        was logged. */
    method SubmitWorkLogs(replies: seq<LogReply>) returns (sent: seq<Worklog>, remindersCleared: bool)
      modifies this`section
      ensures sent == Sent(Plan(tickets), replies)
      ensures remindersCleared <==> Submit(Plan(tickets), replies) == AllLogged
      ensures section == SectionAfterSubmit(Submit(Plan(tickets), replies))
    {
      var outcome;
      sent, outcome := PostWorklogs(Plan(tickets), replies);
      remindersCleared := outcome == AllLogged;
      section := SectionAfterSubmit(outcome);
    }
  }

  /** A refresh that throws leaves the rows, the budget and the snapshot as they were. */
  lemma FailedRefreshKeepsSession(s: Allocation, c: Credentials, replies: seq<SearchReply>, inputs: PopupInputs)
    requires FetchTickets(c, replies).result.Err?
    ensures AfterRefresh(s, FetchTickets(c, replies), inputs) == s
    ensures SectionAfterRefresh(FetchTickets(c, replies)).ErrorShown?
  {
  }

  /** A refresh that returns rows in mode 'all', with the budget field at the session budget,
      lists exactly the fetched rows and splits the stored default hours (6 when unset or 0)
      evenly over them: the hours add up to that budget and the percentages to 100. */
  lemma RefreshAllSplitsDefaultHours(s: Allocation, c: Credentials, replies: seq<SearchReply>, inputs: PopupInputs)
    requires FetchTickets(c, replies).result.Ok? && FetchTickets(c, replies).result.value != []
    requires inputs.autoDistribution == "all"
    requires Abs(FieldValue(inputs.totalField) - s.totalHours) <= BudgetTolerance
    ensures var ts := FetchTickets(c, replies).result.value;
      var r := AfterRefresh(s, FetchTickets(c, replies), inputs);
      && |r.tickets| == |ts|
      && (forall i :: 0 <= i < |ts| ==> SameTicket(ts[i], r.tickets[i]))
      && SumHours(r.tickets) == DistributionBudget(inputs.defaultHours)
      && SumPercentages(r.tickets) == 100.0
      && r.initialDistribution == s.initialDistribution
  {
    var ts := FetchTickets(c, replies).result.value;
    var budget := DistributionBudget(inputs.defaultHours);
    var flags := EligibleFlags(ts, "all", StatusList(inputs.primaryStatuses), inputs.today);
    CountPositive(flags, 0);
    var d := s.(tickets := Distributed(ts, budget, flags));
    SmallBudgetChangeIgnored(d, FieldValue(inputs.totalField));
    DistributionAddsUp(ts, budget, flags);
  }
}
