/** The popup's allocation session as values: the ticket list, the day's budget `totalHours`
    and the reset snapshot `initialDistribution`, with one function per handler that says
    what state the handler leaves. The class in module Session runs these handlers in place
    and is proved against these functions; the lemmas here state what the handlers promise. */
module Allocation {
  import opened Wrappers
  import opened Tickets

  datatype Allocation = Allocation(tickets: seq<Ticket>, totalHours: real, initialDistribution: seq<real>)

  /** The budget a new popup starts with. */
  const InitialTotalHours: real := 6.0

  /** A budget change of at most this much is ignored. */
  const BudgetTolerance: real := 0.01

  /** The budget auto-distribution falls back to when none (or 0) is stored. */
  const DefaultDistributionHours: real := 6.0

  function Abs(x: real): real {
    if x < 0.0 then -x else x
  }

  /** The percentage view of `hours` against a budget; 0 when the budget is not positive. */
  function PercentOf(hours: real, total: real): real {
    if total > 0.0 then hours / total * 100.0 else 0.0
  }

  /** The hours view of a percentage of a budget. */
  function HoursOf(percentage: real, total: real): real {
    percentage / 100.0 * total
  }

  /** A percentage of a positive budget is the share of it that `hours` make up. */
  lemma PercentOfIsShare(hours: real, total: real)
    ensures total > 0.0 ==> PercentOf(hours, total) * total == hours * 100.0
    ensures total <= 0.0 ==> PercentOf(hours, total) == 0.0
  {
  }

  /** The hours of a percentage are that many hundredths of the budget. */
  lemma HoursOfIsShare(percentage: real, total: real)
    ensures HoursOf(percentage, total) * 100.0 == percentage * total
  {
  }

  /** The two views of a ticket's allocation agree for this budget. */
  predicate Consistent(t: Ticket, total: real) {
    t.hours * 100.0 == t.percentage * total
  }

  /** Nothing but today's allocation differs between two records of the same ticket. */
  predicate SameTicket(a: Ticket, b: Ticket) {
    a.(hours := b.hours, percentage := b.percentage) == b
  }

  // ---------------------------------------------------------------------------------------
  // Manual edits

  /** `handleHoursChange` on an existing row: no clamping, the percentage follows. */
  function SetHours(s: Allocation, i: nat, hours: real): Allocation
    requires i < |s.tickets|
  {
    var t := s.tickets[i];
    s.(tickets := s.tickets[i := t.(hours := hours, percentage := PercentOf(hours, s.totalHours))])
  }

  /** `handlePercentageChange` on an existing row: the hours follow. */
  function SetPercentage(s: Allocation, i: nat, percentage: real): Allocation
    requires i < |s.tickets|
  {
    var t := s.tickets[i];
    s.(tickets := s.tickets[i := t.(percentage := percentage, hours := HoursOf(percentage, s.totalHours))])
  }

  /** An edit through the hours view: the row gets exactly those hours (negative ones too),
      its percentage agrees with them for a positive budget and is 0 otherwise, and no other
      row, the budget or the snapshot changes. */
  lemma SetHoursKeepsViewsConsistent(s: Allocation, i: nat, hours: real)
    requires i < |s.tickets|
    ensures var s' := SetHours(s, i, hours);
      && |s'.tickets| == |s.tickets|
      && s'.totalHours == s.totalHours && s'.initialDistribution == s.initialDistribution
      && s'.tickets[i].hours == hours && SameTicket(s.tickets[i], s'.tickets[i])
      && (s.totalHours > 0.0 ==> Consistent(s'.tickets[i], s.totalHours))
      && (s.totalHours <= 0.0 ==> s'.tickets[i].percentage == 0.0)
      && (forall j :: 0 <= j < |s.tickets| && j != i ==> s'.tickets[j] == s.tickets[j])
  {
  }

  /** An edit through the percentage view: the two views agree for any budget, and no other
      row, the budget or the snapshot changes. */
  lemma SetPercentageKeepsViewsConsistent(s: Allocation, i: nat, percentage: real)
    requires i < |s.tickets|
    ensures var s' := SetPercentage(s, i, percentage);
      && |s'.tickets| == |s.tickets|
      && s'.totalHours == s.totalHours && s'.initialDistribution == s.initialDistribution
      && s'.tickets[i].percentage == percentage && SameTicket(s.tickets[i], s'.tickets[i])
      && Consistent(s'.tickets[i], s.totalHours)
      && (forall j :: 0 <= j < |s.tickets| && j != i ==> s'.tickets[j] == s.tickets[j])
  {
  }

  /** For a positive budget the two edits undo each other's conversion: setting the hours a
      percentage stands for gives that percentage back, and the other way round. */
  lemma EditsAreInverse(s: Allocation, i: nat, hours: real, percentage: real)
    requires i < |s.tickets| && s.totalHours > 0.0
    ensures SetHours(s, i, HoursOf(percentage, s.totalHours)) == SetPercentage(s, i, percentage)
    ensures SetPercentage(s, i, PercentOf(hours, s.totalHours)) == SetHours(s, i, hours)
  {
    var t := s.totalHours;
    var h := HoursOf(percentage, t);
    assert PercentOf(h, t) * t == percentage * t;
    var p := PercentOf(hours, t);
    assert HoursOf(p, t) * 100.0 == hours * 100.0;
  }

  // ---------------------------------------------------------------------------------------
  // Budget change

  /** Every row's hours recomputed from its percentage of the new budget. */
  function Rescaled(ts: seq<Ticket>, total: real): (r: seq<Ticket>)
    ensures |r| == |ts|
  {
    seq(|ts|, i requires 0 <= i < |ts| => ts[i].(hours := HoursOf(ts[i].percentage, total)))
  }

  /** `tickets.map(ticket => ticket.hours)`. */
  function HoursList(ts: seq<Ticket>): (hs: seq<real>)
    ensures |hs| == |ts| && forall i :: 0 <= i < |ts| ==> hs[i] == ts[i].hours
  {
    seq(|ts|, i requires 0 <= i < |ts| => ts[i].hours)
  }

  /** `updateTotalHours` with the (already parsed) value of the budget field. */
  function UpdateTotal(s: Allocation, newTotal: real): Allocation {
    if Abs(newTotal - s.totalHours) > BudgetTolerance then
      var ts := Rescaled(s.tickets, newTotal);
      Allocation(ts, newTotal, HoursList(ts))
    else
      s
  }

  /** A change within the tolerance leaves the whole state as it was, snapshot included. */
  lemma SmallBudgetChangeIgnored(s: Allocation, newTotal: real)
    requires Abs(newTotal - s.totalHours) <= BudgetTolerance
    ensures UpdateTotal(s, newTotal) == s
  {
  }

  /** A larger change is a linear rescale: every percentage is kept, every row's hours are
      its percentage of the new budget (so, for a row that was consistent with the old
      positive budget, they scale by new/old), and the snapshot becomes the new hours. */
  lemma BudgetChangeRescales(s: Allocation, newTotal: real)
    requires Abs(newTotal - s.totalHours) > BudgetTolerance
    ensures var s' := UpdateTotal(s, newTotal);
      && s'.totalHours == newTotal && |s'.tickets| == |s.tickets|
      && |s'.initialDistribution| == |s.tickets|
      && (forall i :: 0 <= i < |s.tickets| ==>
            && SameTicket(s.tickets[i], s'.tickets[i])
            && s'.tickets[i].percentage == s.tickets[i].percentage
            && Consistent(s'.tickets[i], newTotal)
            && s'.initialDistribution[i] == s'.tickets[i].hours
            && (s.totalHours > 0.0 && Consistent(s.tickets[i], s.totalHours) ==>
                  s'.tickets[i].hours * s.totalHours == s.tickets[i].hours * newTotal))
  {
    var s' := UpdateTotal(s, newTotal);
    forall i | 0 <= i < |s.tickets|
      ensures s.totalHours > 0.0 && Consistent(s.tickets[i], s.totalHours) ==>
                s'.tickets[i].hours * s.totalHours == s.tickets[i].hours * newTotal
    {
      var p, h, h' := s.tickets[i].percentage, s.tickets[i].hours, s'.tickets[i].hours;
      assert h' * 100.0 == p * newTotal;
      if s.totalHours > 0.0 && Consistent(s.tickets[i], s.totalHours) {
        calc {
          h' * s.totalHours * 100.0;
          p * newTotal * s.totalHours;
          (p * s.totalHours) * newTotal;
          h * 100.0 * newTotal;
        }
      }
    }
  }

  /** The worked case: 50% of a 6-hour budget is 3 hours, and moving the budget to 8 makes it
      4 hours at the same 50%. */
  lemma RescaleExample(t: Ticket)
    requires t.hours == 3.0 && t.percentage == 50.0
    ensures var s' := UpdateTotal(Allocation([t], 6.0, []), 8.0);
      s'.tickets[0].hours == 4.0 && s'.tickets[0].percentage == 50.0
      && s'.initialDistribution == [4.0]
  {
  }

  // ---------------------------------------------------------------------------------------
  // Auto-distribution

  /** `settings.defaultHours || 6`: a missing, unparsable or zero setting means 6. */
  function DistributionBudget(defaultHours: Option<real>): (b: real)
    ensures b != 0.0
    ensures defaultHours.Some? && defaultHours.value != 0.0 ==> b == defaultHours.value
    ensures defaultHours.None? || defaultHours.value == 0.0 ==> b == DefaultDistributionHours
  {
    if defaultHours.Some? && defaultHours.value != 0.0 then defaultHours.value else DefaultDistributionHours
  }

  /** `settings.autoDistribution || 'none'`. */
  function DistributionMode(mode: string): string {
    if mode == "" then "none" else mode
  }

  /** Which rows auto-distribution gives hours to: every row in mode 'all', rows with a
      primary status or updated today in mode 'activeWork', and none in any other mode. */
  predicate Eligible(mode: string, t: Ticket, primary: seq<string>, today: string) {
    || mode == "all"
    || (mode == "activeWork" && (IsPrimaryStatus(t.status, primary) || DatePart(t.updated) == today))
  }

  function EligibleFlags(ts: seq<Ticket>, mode: string, primary: seq<string>, today: string): (flags: seq<bool>)
    ensures |flags| == |ts|
    ensures forall i :: 0 <= i < |ts| ==> flags[i] == Eligible(mode, ts[i], primary, today)
  {
    seq(|ts|, i requires 0 <= i < |ts| => Eligible(mode, ts[i], primary, today))
  }

  /** The number of true flags. */
  function Count(flags: seq<bool>): (n: nat)
    ensures n <= |flags|
  {
    if flags == [] then 0 else Count(flags[..|flags| - 1]) + (if flags[|flags| - 1] then 1 else 0)
  }

  lemma {:induction false} CountPositive(flags: seq<bool>, i: nat)
    requires i < |flags| && flags[i]
    ensures Count(flags) > 0
  {
    if i < |flags| - 1 {
      CountPositive(flags[..|flags| - 1], i);
    }
  }

  /** `totalHours / eligibleTickets.length`: one eligible row's hours. */
  function Share(budget: real, n: nat): (h: real)
    requires n > 0
    ensures h * n as real == budget
  {
    budget / n as real
  }

  /** `(hoursPerTicket / totalHours) * 100`: one eligible row's percentage. */
  function SharePercentage(share: real, budget: real): real
    requires budget != 0.0
  {
    share / budget * 100.0
  }

  lemma SharePercentageTimesCount(budget: real, n: nat)
    requires n > 0 && budget != 0.0
    ensures SharePercentage(Share(budget, n), budget) * n as real == 100.0
  {
    var share := Share(budget, n);
    calc {
      SharePercentage(share, budget) * n as real;
      (share * n as real) / budget * 100.0;
      100.0;
    }
  }

  /** One row after auto-distribution: zeroed, then given the share when it is eligible. */
  function DistributedRow(t: Ticket, eligible: bool, budget: real, n: nat): Ticket
    requires budget != 0.0
  {
    if eligible && n > 0 then
      var share := Share(budget, n);
      t.(hours := share, percentage := SharePercentage(share, budget))
    else
      t.(hours := 0.0, percentage := 0.0)
  }

  /** Every row zeroed, then each eligible row given an equal share of `budget`. */
  function Distributed(ts: seq<Ticket>, budget: real, flags: seq<bool>): (r: seq<Ticket>)
    requires |flags| == |ts| && budget != 0.0
    ensures |r| == |ts|
    ensures forall i :: 0 <= i < |ts| ==> r[i] == DistributedRow(ts[i], flags[i], budget, Count(flags))
  {
    var n := Count(flags);
    seq(|ts|, i requires 0 <= i < |ts| => DistributedRow(ts[i], flags[i], budget, n))
  }

  /** `autoDistributeHours` with the stored settings, today's date and the value the budget
      field holds: the distribution, followed by the synchronous part of the un-awaited
      `updateTotalHours()` call that ends the handler. */
  function AutoDistribute(s: Allocation, defaultHours: Option<real>, mode: string,
                          primaryStatuses: string, today: string, totalInput: real): Allocation
  {
    var flags := EligibleFlags(s.tickets, DistributionMode(mode), StatusList(primaryStatuses), today);
    UpdateTotal(s.(tickets := Distributed(s.tickets, DistributionBudget(defaultHours), flags)), totalInput)
  }

  /** Each eligible row gets budget/n hours and 100/n percent, where n is the number of
      eligible rows. */
  lemma {:induction false} EligibleRowGetsShare(ts: seq<Ticket>, budget: real, flags: seq<bool>, i: nat)
    requires |flags| == |ts| && budget != 0.0 && i < |ts| && flags[i]
    ensures Count(flags) > 0
    ensures var d := Distributed(ts, budget, flags);
      && SameTicket(ts[i], d[i])
      && d[i].hours * Count(flags) as real == budget
  {
    CountPositive(flags, i);
    var n := Count(flags);
    var share := Share(budget, n);
    assert Distributed(ts, budget, flags)[i].hours == share;
  }

  lemma {:induction false} EligibleRowGetsSharePercentage(ts: seq<Ticket>, budget: real, flags: seq<bool>, i: nat)
    requires |flags| == |ts| && budget != 0.0 && i < |ts| && flags[i]
    ensures Count(flags) > 0
    ensures Distributed(ts, budget, flags)[i].percentage * Count(flags) as real == 100.0
  {
    CountPositive(flags, i);
    var n := Count(flags);
    var pct := SharePercentage(Share(budget, n), budget);
    SharePercentageTimesCount(budget, n);
    var r := Distributed(ts, budget, flags)[i];
    assert r == DistributedRow(ts[i], true, budget, n);
    assert r.percentage == pct;
  }

  /** A row that is not eligible is left at 0 hours and 0 percent. */
  lemma IneligibleRowGetsNothing(ts: seq<Ticket>, budget: real, flags: seq<bool>, i: nat)
    requires |flags| == |ts| && budget != 0.0 && i < |ts| && !flags[i]
    ensures var d := Distributed(ts, budget, flags);
      SameTicket(ts[i], d[i]) && d[i].hours == 0.0 && d[i].percentage == 0.0
  {
  }

  /** `n` copies of `x` added up. */
  function Times(n: nat, x: real): real {
    if n == 0 then 0.0 else Times(n - 1, x) + x
  }

  lemma {:induction false} TimesIsProduct(n: nat, x: real)
    ensures Times(n, x) == n as real * x
  {
    if n > 0 {
      TimesIsProduct(n - 1, x);
    }
  }

  function SumHours(ts: seq<Ticket>): real {
    if ts == [] then 0.0 else SumHours(ts[..|ts| - 1]) + ts[|ts| - 1].hours
  }

  function SumPercentages(ts: seq<Ticket>): real {
    if ts == [] then 0.0 else SumPercentages(ts[..|ts| - 1]) + ts[|ts| - 1].percentage
  }

  /** Rows that each hold either (h, p) or (0, 0) add up to as many copies of h and p as
      there are rows of the first kind. */
  lemma {:induction false} UniformRowSums(d: seq<Ticket>, flags: seq<bool>, h: real, p: real)
    requires |flags| == |d|
    requires forall i :: 0 <= i < |d| ==>
      (if flags[i] then d[i].hours == h && d[i].percentage == p else d[i].hours == 0.0 && d[i].percentage == 0.0)
    ensures SumHours(d) == Times(Count(flags), h)
    ensures SumPercentages(d) == Times(Count(flags), p)
  {
    if d != [] {
      var k := |d| - 1;
      UniformRowSums(d[..k], flags[..k], h, p);
    }
  }

  /** When some row is eligible the shares add up to the whole budget and to 100 percent;
      when none is, every row is left at 0. */
  lemma {:induction false} DistributionAddsUp(ts: seq<Ticket>, budget: real, flags: seq<bool>)
    requires |flags| == |ts| && budget != 0.0
    ensures var d := Distributed(ts, budget, flags);
      && (Count(flags) > 0 ==> SumHours(d) == budget && SumPercentages(d) == 100.0)
      && (Count(flags) == 0 ==> forall i :: 0 <= i < |d| ==> d[i].hours == 0.0 && d[i].percentage == 0.0)
  {
    var d := Distributed(ts, budget, flags);
    var n := Count(flags);
    if n > 0 {
      var h := Share(budget, n);
      var p := SharePercentage(h, budget);
      assert SumHours(d) == Times(n, h) && SumPercentages(d) == Times(n, p) by {
        UniformRowSums(d, flags, h, p);
      }
      assert Times(n, h) == budget by {
        TimesIsProduct(n, h);
      }
      assert Times(n, p) == 100.0 by {
        TimesIsProduct(n, p);
        SharePercentageTimesCount(budget, n);
      }
    }
  }

  /** The worked case: a 6-hour budget over three rows in mode 'all' gives 2 hours each. */
  lemma EvenSplitExample(a: Ticket, b: Ticket, c: Ticket)
    ensures var d := Distributed([a, b, c], 6.0, [true, true, true]);
      d[0].hours == 2.0 && d[1].hours == 2.0 && d[2].hours == 2.0
  {
    assert [true, true, true][..2] == [true, true];
    assert [true, true][..1] == [true];
    assert Count([true, true, true]) == 3;
  }

  /** In mode 'activeWork' a row is eligible exactly when the classifier shows it as active
      work or active today; fallback-only and unexplained rows get nothing. */
  lemma ActiveWorkMatchesClassifier(t: Ticket, primaryStatuses: string, today: string)
    ensures Eligible("activeWork", t, StatusList(primaryStatuses), today)
        <==> StatusReason(t, primaryStatuses, today) in {ActiveWork, ActiveToday}
  {
  }

  /** A stored budget of 0 is read as 6, not as "distribute nothing". */
  lemma ZeroDefaultHoursMeansSix(s: Allocation, today: string, i: nat)
    requires i < |s.tickets|
    ensures var s' := AutoDistribute(s, Some(0.0), "all", "", today, s.totalHours);
      s'.tickets[i].hours * |s.tickets| as real == 6.0
  {
    var flags := EligibleFlags(s.tickets, "all", StatusList(""), today);
    var d := Distributed(s.tickets, 6.0, flags);
    assert d[i].hours * |s.tickets| as real == 6.0 by {
      CountAllTrue(flags);
      EligibleRowGetsShare(s.tickets, 6.0, flags, i);
    }
    assert AutoDistribute(s, Some(0.0), "all", "", today, s.totalHours).tickets == d by {
      SmallBudgetChangeIgnored(s.(tickets := d), s.totalHours);
    }
  }

  lemma {:induction false} CountAllTrue(flags: seq<bool>)
    requires forall i :: 0 <= i < |flags| ==> flags[i]
    ensures Count(flags) == |flags|
  {
    if flags != [] {
      CountAllTrue(flags[..|flags| - 1]);
    }
  }

  /** Auto-distribution captures no snapshot of its own: when the budget field agrees with the
      session budget the snapshot stays what it was, so a reset does not go back to the
      automatic split. */
  lemma AutoDistributeKeepsSnapshot(s: Allocation, defaultHours: Option<real>, mode: string,
                                    primaryStatuses: string, today: string, totalInput: real)
    requires Abs(totalInput - s.totalHours) <= BudgetTolerance
    ensures var s' := AutoDistribute(s, defaultHours, mode, primaryStatuses, today, totalInput);
      s'.initialDistribution == s.initialDistribution && s'.totalHours == s.totalHours
  {
    var flags := EligibleFlags(s.tickets, DistributionMode(mode), StatusList(primaryStatuses), today);
    var d := s.(tickets := Distributed(s.tickets, DistributionBudget(defaultHours), flags));
    SmallBudgetChangeIgnored(d, totalInput);
  }

  /** Auto-distribution splits the stored default hours, not the session budget: with a
      budget of 8 and 6 default hours, a single row gets 6 hours at 100 percent, and the two
      views of it disagree for the budget the session keeps. */
  lemma AutoDistributeIgnoresSessionBudget(t: Ticket, today: string)
    ensures var s' := AutoDistribute(Allocation([t], 8.0, []), Some(6.0), "all", "", today, 8.0);
      && s'.totalHours == 8.0 && s'.tickets[0].hours == 6.0 && s'.tickets[0].percentage == 100.0
      && !Consistent(s'.tickets[0], s'.totalHours)
  {
    var flags := EligibleFlags([t], "all", StatusList(""), today);
    assert flags[..0] == [];
    assert Count(flags) == 1;
  }

  /** The first auto-distribution of a fresh popup leaves an empty snapshot, whatever budget
      the field and the session agree on (a budget typed while the first query was running
      changes an empty list and takes an empty snapshot): resetting afterwards zeroes every
      row. */
  lemma ResetAfterFirstAutoDistributeZeroes(ts: seq<Ticket>, budget: real, defaultHours: Option<real>,
                                            mode: string, primaryStatuses: string, today: string)
    ensures var s' := AutoDistribute(Allocation(ts, budget, []), defaultHours, mode,
                                     primaryStatuses, today, budget);
      forall i :: 0 <= i < |Reset(s').tickets| ==>
        Reset(s').tickets[i].hours == 0.0 && Reset(s').tickets[i].percentage == 0.0
  {
  }

  // ---------------------------------------------------------------------------------------
  // Reset

  /** `initialDistribution[index] || 0`. */
  function SnapshotHours(snapshot: seq<real>, i: nat): real {
    if i < |snapshot| && snapshot[i] != 0.0 then snapshot[i] else 0.0
  }

  function Restored(ts: seq<Ticket>, snapshot: seq<real>, total: real): (r: seq<Ticket>)
    ensures |r| == |ts|
  {
    seq(|ts|, i requires 0 <= i < |ts| =>
      var h := SnapshotHours(snapshot, i);
      ts[i].(hours := h, percentage := PercentOf(h, total)))
  }

  /** `resetDistribution`. */
  function Reset(s: Allocation): Allocation {
    s.(tickets := Restored(s.tickets, s.initialDistribution, s.totalHours))
  }

  /** A reset puts every row back to its snapshot hours (0 past the snapshot's end), with a
      percentage that agrees for the current budget, whatever edits came before. */
  lemma ResetRestoresSnapshot(s: Allocation, i: nat)
    requires i < |s.tickets|
    ensures var r := Reset(s).tickets[i];
      && SameTicket(s.tickets[i], r)
      && r.hours == (if i < |s.initialDistribution| then s.initialDistribution[i] else 0.0)
      && (s.totalHours > 0.0 ==> Consistent(r, s.totalHours))
      && (s.totalHours <= 0.0 ==> r.percentage == 0.0)
  {
  }

  /** Reset after a budget change: after any edits that keep the rows, the budget and the
      snapshot, a reset gives back exactly the rescaled hours and the percentages the rows
      had before the budget change. */
  lemma ResetAfterBudgetChange(s: Allocation, newTotal: real, edited: Allocation)
    requires Abs(newTotal - s.totalHours) > BudgetTolerance && newTotal > 0.0
    requires var u := UpdateTotal(s, newTotal);
      |edited.tickets| == |u.tickets| && edited.totalHours == u.totalHours
      && edited.initialDistribution == u.initialDistribution
    ensures var u := UpdateTotal(s, newTotal); var r := Reset(edited);
      forall i :: 0 <= i < |s.tickets| ==>
        r.tickets[i].hours == u.tickets[i].hours
        && r.tickets[i].percentage == s.tickets[i].percentage
  {
    var u := UpdateTotal(s, newTotal);
    var r := Reset(edited);
    forall i | 0 <= i < |s.tickets|
      ensures r.tickets[i].hours == u.tickets[i].hours
      ensures r.tickets[i].percentage == s.tickets[i].percentage
    {
      var p := s.tickets[i].percentage;
      var h := u.tickets[i].hours;
      assert h * 100.0 == p * newTotal;
      assert r.tickets[i].hours == h;
      assert r.tickets[i].percentage * newTotal == h * 100.0;
    }
  }

  // ---------------------------------------------------------------------------------------
  // Breakdown

  /** The totals `updateBreakdown` shows. */
  datatype Breakdown = Breakdown(
    totalAllocated: real,
    totalEstimated: real,
    totalLogged: real,
    warningCount: nat,
    remaining: real,
    submitDisabled: bool)

  /** The breakdown's overage test for a row's own allocation. */
  predicate WillExceed(t: Ticket) {
    t.originalEstimate > 0.0 && t.timeSpent + t.hours > t.originalEstimate
  }

  function PositivePart(x: real): real {
    if x > 0.0 then x else 0.0
  }

  /** The hours of the rows with a positive allocation, added up. */
  function AllocatedHours(ts: seq<Ticket>): real {
    if ts == [] then 0.0 else AllocatedHours(ts[..|ts| - 1]) + PositivePart(ts[|ts| - 1].hours)
  }

  function EstimatedHours(ts: seq<Ticket>): real {
    if ts == [] then 0.0 else EstimatedHours(ts[..|ts| - 1]) + ts[|ts| - 1].originalEstimate
  }

  function LoggedHours(ts: seq<Ticket>): real {
    if ts == [] then 0.0 else LoggedHours(ts[..|ts| - 1]) + ts[|ts| - 1].timeSpent
  }

  /** Rows with a positive allocation that would overrun their estimate. */
  function WarningCount(ts: seq<Ticket>): nat {
    if ts == [] then 0
    else WarningCount(ts[..|ts| - 1]) + (if ts[|ts| - 1].hours > 0.0 && WillExceed(ts[|ts| - 1]) then 1 else 0)
  }

  function BreakdownOf(s: Allocation): Breakdown {
    var sum := AllocatedHours(s.tickets);
    Breakdown(sum, EstimatedHours(s.tickets), LoggedHours(s.tickets), WarningCount(s.tickets),
              s.totalHours - sum, sum == 0.0)
  }

  /** The allocated total is never negative, and it is 0 exactly when no row has positive
      hours. */
  lemma {:induction false} AllocatedZeroIffNothingPositive(ts: seq<Ticket>)
    ensures AllocatedHours(ts) >= 0.0
    ensures AllocatedHours(ts) == 0.0 <==> forall i :: 0 <= i < |ts| ==> ts[i].hours <= 0.0
  {
    if ts != [] {
      var init := ts[..|ts| - 1];
      AllocatedZeroIffNothingPositive(init);
      assert forall i :: 0 <= i < |init| ==> init[i] == ts[i];
    }
  }

  /** The breakdown's per-row warning is the capacity check applied to the row's own hours. */
  lemma BreakdownWarningIsCapacityCheck(t: Ticket)
    ensures WillExceed(t) <==> CheckCapacity(t, t.hours).Exceeds?
  {
  }

  /** Submitting is disabled exactly when no row has positive hours, and what remains of the
      budget is the budget less the allocated total. */
  lemma BreakdownSubmitDisabled(s: Allocation)
    ensures BreakdownOf(s).submitDisabled <==> forall i :: 0 <= i < |s.tickets| ==> s.tickets[i].hours <= 0.0
    ensures BreakdownOf(s).remaining + BreakdownOf(s).totalAllocated == s.totalHours
  {
    AllocatedZeroIffNothingPositive(s.tickets);
  }
}
