/** When the daily reminder first fires: the stored `HH:MM` time (17:00 when unset) today,
    moved to tomorrow when it has already passed, then past any Saturday or Sunday. Times are
    local milliseconds since 1 January 1970, a Thursday. */
module Schedule {
  import opened Wrappers
  import opened Text

  const MsPerMinute: int := 60000
  const MsPerHour: int := 3600000
  const MsPerDay: int := 86400000

  /** The daily alarm repeats every 24 * 60 minutes. */
  const RepeatMinutes: int := 24 * 60

  const DefaultTime: string := "17:00"

  /** The day a moment falls on, counted from 1 January 1970. */
  function DayOf(t: int): int {
    t / MsPerDay
  }

  /** `getDay()`: 0 for Sunday up to 6 for Saturday; day 0 was a Thursday. */
  function Weekday(t: int): int {
    (DayOf(t) + 4) % 7
  }

  predicate OnWeekend(t: int) {
    Weekday(t) == 0 || Weekday(t) == 6
  }

  /** `t` moved `k` whole days on. */
  function Shifted(t: int, k: int): int {
    t + k * MsPerDay
  }

  lemma NextDayWeekday(t: int)
    ensures DayOf(t + MsPerDay) == DayOf(t) + 1
    ensures Weekday(t + MsPerDay) == (Weekday(t) + 1) % 7
  {
  }

  /** How many days are left before the week starts again. */
  function WeekendDaysLeft(t: int): nat {
    if Weekday(t) == 6 then 2 else if Weekday(t) == 0 then 1 else 0
  }

  /** The skip loop: `t` moved a day at a time until it is neither Saturday nor Sunday. It
      moves at most two days, keeps the time of day, and every day it passes is a weekend
      day. */
  function SkipWeekend(t: int): (r: int)
    ensures !OnWeekend(r)
    ensures t <= r <= Shifted(t, 2) && (r - t) % MsPerDay == 0
    ensures forall k :: 0 <= k && Shifted(t, k) < r ==> OnWeekend(Shifted(t, k))
    decreases WeekendDaysLeft(t)
  {
    if OnWeekend(t) then
      NextDayWeekday(t);
      var r := SkipWeekend(t + MsPerDay);
      assert forall k :: 1 <= k ==> Shifted(t, k) == Shifted(t + MsPerDay, k - 1);
      r
    else
      t
  }

  /** `setHours(hours, minutes, 0, 0)` on the day of `now`; values past 23 or 59 run into
      the following days as they do in JavaScript. */
  function Candidate(now: int, hours: int, minutes: int): int {
    DayOf(now) * MsPerDay + hours * MsPerHour + minutes * MsPerMinute
  }

  /** The time set for today, or tomorrow when it is not after `now`. */
  function FirstTry(now: int, hours: int, minutes: int): int {
    var c := Candidate(now, hours, minutes);
    if c <= now then c + MsPerDay else c
  }

  /** When the daily reminder is set to fire first. */
  function FirstFire(now: int, hours: int, minutes: int): (fire: int)
    ensures !OnWeekend(fire)
    ensures FirstTry(now, hours, minutes) <= fire
  {
    SkipWeekend(FirstTry(now, hours, minutes))
  }

  /** The next-fire computation of `setupDailyAlarm`. */
  method NextFire(now: int, hours: int, minutes: int) returns (fire: int)
    ensures fire == FirstFire(now, hours, minutes)
  {
    fire := Candidate(now, hours, minutes);
    if fire <= now {
      fire := fire + MsPerDay;
    }
    while Weekday(fire) == 0 || Weekday(fire) == 6
      invariant SkipWeekend(fire) == FirstFire(now, hours, minutes)
      decreases WeekendDaysLeft(fire)
    {
      NextDayWeekday(fire);
      fire := fire + MsPerDay;
    }
  }

  /** For a time of day (`00:00` to `23:59`), the first fire is the earliest moment after
      `now` at that time of day that is not on a weekend: it is after `now`, on a weekday, a
      whole number of days after today's set time and at most three days after it, and every
      earlier such moment after `now` falls on a Saturday or a Sunday. */
  lemma {:induction false} FirstFireIsNextWeekdayOccurrence(now: int, hours: int, minutes: int)
    requires 0 <= hours * MsPerHour + minutes * MsPerMinute < MsPerDay
    ensures var c, fire := Candidate(now, hours, minutes), FirstFire(now, hours, minutes);
      && fire > now && !OnWeekend(fire)
      && (fire - c) % MsPerDay == 0 && c <= fire <= Shifted(c, 3)
      && (forall k :: now < Shifted(c, k) < fire ==> OnWeekend(Shifted(c, k)))
  {
    var c, first := Candidate(now, hours, minutes), FirstTry(now, hours, minutes);
    var fire := SkipWeekend(first);
    assert DayOf(now) * MsPerDay <= now < DayOf(now) * MsPerDay + MsPerDay;
    assert first > now;
    forall k | now < Shifted(c, k) < fire
      ensures OnWeekend(Shifted(c, k))
    {
      var j := if c <= now then k - 1 else k;
      assert Shifted(c, k) == Shifted(first, j);
      assert 0 <= j;
    }
  }

  /** `Number(piece)` for the pieces a time field holds: white space around it is ignored,
      an empty piece is 0, decimal digits are their value, anything else is not a number. */
  function NumberOf(piece: string): Option<int> {
    var t := Trim(piece);
    if t == "" then Some(0)
    else if AllDigits(t) then Some(DigitsValue(t))
    else None
  }

  predicate IsDigit(c: char) {
    '0' <= c <= '9'
  }

  predicate AllDigits(s: string) {
    forall i :: 0 <= i < |s| ==> IsDigit(s[i])
  }

  function DigitsValue(s: string): (n: nat)
    requires AllDigits(s)
  {
    if s == [] then 0 else DigitsValue(s[..|s| - 1]) * 10 + (s[|s| - 1] as int - '0' as int)
  }

  /** `(stored || '17:00').split(':').map(Number)` taken as hours and minutes; `None` when
      either is not a number or there is no second piece. */
  function ParseTime(stored: string): (time: Option<(int, int)>)
    ensures time.Some? ==> time.value.0 >= 0 && time.value.1 >= 0
  {
    var time := if stored == "" then DefaultTime else stored;
    var pieces := Split(time, ':');
    if |pieces| < 2 then None
    else match (NumberOf(pieces[0]), NumberOf(pieces[1]))
      case (Some(h), Some(m)) => Some((h, m))
      case _ => None
  }

  /** The two-digit form a time field gives a number below 100. */
  function TwoDigits(n: nat): (s: string)
    requires n < 100
    ensures |s| == 2 && AllDigits(s)
  {
    [('0' as int + n / 10) as char, ('0' as int + n % 10) as char]
  }

  /** The `HH:MM` value of a time field. */
  function FormatTime(hours: nat, minutes: nat): string
    requires hours < 100 && minutes < 100
  {
    TwoDigits(hours) + ":" + TwoDigits(minutes)
  }

  lemma TwoDigitsValue(n: nat)
    requires n < 100
    ensures NumberOf(TwoDigits(n)) == Some(n)
  {
    var s := TwoDigits(n);
    assert s[0] as int - '0' as int == n / 10 && s[1] as int - '0' as int == n % 10;
    assert s[..1] == [s[0]];
    assert [s[0]][..0] == [];
    assert DigitsValue([s[0]]) == n / 10;
    assert DigitsValue(s) == n / 10 * 10 + n % 10;
    assert !IsSpace(s[0]) && !IsSpace(s[1]);
    assert TrimStart(s) == s;
    assert TrimEnd(s) == s;
  }

  lemma DefaultTimeReads()
    ensures ParseTime("") == Some((17, 0))
  {
    var a, b := TwoDigits(17), TwoDigits(0);
    assert DefaultTime == a + [':'] + b;
    assert ':' !in a && ':' !in b;
    SplitAtSeparator(a, ':', b);
    SplitWithoutSeparator(b, ':');
    TwoDigitsValue(17);
    TwoDigitsValue(0);
  }

  /** Reading a time field's value gives back the hours and minutes it shows, and an unset
      time reads as 17:00. */
  lemma ParseFormatRoundTrip(hours: nat, minutes: nat)
    requires hours < 100 && minutes < 100
    ensures ParseTime(FormatTime(hours, minutes)) == Some((hours, minutes))
    ensures ParseTime("") == Some((17, 0))
  {
    var a, b := TwoDigits(hours), TwoDigits(minutes);
    assert ':' !in a && ':' !in b by {
      assert forall i :: 0 <= i < 2 ==> IsDigit(a[i]) && IsDigit(b[i]);
    }
    SplitAtSeparator(a, ':', b);
    SplitWithoutSeparator(b, ':');
    assert FormatTime(hours, minutes) == a + [':'] + b;
    assert Split(FormatTime(hours, minutes), ':') == [a, b];
    TwoDigitsValue(hours);
    TwoDigitsValue(minutes);
    DefaultTimeReads();
  }
}
