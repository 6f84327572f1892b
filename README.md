# Work Logger in Dafny

A model of the core of Work Logger, a browser extension that reminds its user each weekday
to log work hours, fetches the user's tickets from a Jira tracker, lets the user split a
daily budget of hours over them, and posts one worklog per ticket.

The model covers three parts of the extension:

- **The popup** (`popup.js`). The allocation session is the class
  `Session.AllocationSession`. It holds the ticket rows, the budget `totalHours` and the reset
  snapshot `initialDistribution`, and has one method per handler: manual edits through hours
  or percentage, the budget change, auto-distribution, reset, the breakdown, refresh and
  submission. Each method is proved against a specification function, and lemmas about that
  function state what the handler promises. The edits, the budget change,
  auto-distribution, reset and the breakdown are specified in `Allocation`. Refresh and
  initialisation are specified by `Session.AfterRefresh`, and submission by `Worklogs.Sent`
  and `Worklogs.Submit`.
  - The ticket query's control flow is a pure function over the tracker's replies (`Fetch`).
    Its steps are GET, then POST on a 405, then one fallback query on a 400.
  - Issue normalisation, the status classifier and the capacity check live in `Tickets`.
  - Submission, which stops at the first failure, lives in `Worklogs`.
- **The options page** (`options.js`), in `Options`. It covers:
  - the required fields;
  - the address clean-up: `https://` in front unless the address starts with `http`, and one
    trailing slash removed;
  - the connection test and its status-to-error mapping;
  - the defaults a form shows for settings that were never stored.
- **The background worker** (`background.js`). The first-fire computation of the daily
  alarm is in `Schedule`: the stored `HH:MM` today, tomorrow if already past, then past any
  weekend. The reminder state machine is the class `Reminders.ReminderService`: the badge,
  the `reminderActive` flag, the alarms, the notification and its buttons, and the message
  listener.

Modelling choices:
- Hours and percentages are `real`, so "hours = percentage / 100 × budget" holds exactly.
- The network is a sequence of replies, one per request in the order the requests are sent.
  A missing reply stands for a `fetch` that rejects.
- Values the handlers read from storage, the page or the clock are parameters. This covers
  the settings, today's date, the budget field and the time.
- Times are local milliseconds since 1 January 1970, a Thursday, so the weekday of a moment
  is `(t / 86400000 + 4) % 7`.

## Behaviour worth knowing

- **Snapshot timing.** The reset snapshot is taken only inside `updateTotalHours`, and only
  when the budget moves by more than 0.01 (popup.js:375, 391). Auto-distribution takes no
  snapshot of its own.
  - When the budget field equals the session budget, a reset after auto-distribution goes
    back to the older snapshot (`Allocation.AutoDistributeKeepsSnapshot`).
  - After the first auto-distribution of a new popup, that older snapshot is empty, whatever
    budget was typed before the rows arrived, and the reset zeroes every row (`Allocation.ResetAfterFirstAutoDistributeZeroes`).
- **Auto-distribution budget.** Auto-distribution splits `settings.defaultHours || 6`, a local
  value that hides the session budget (popup.js:492). It does not split the session budget.
  - A stored 0 means 6.
  - The hours and percentages it writes can disagree with the session's budget
    (`Allocation.AutoDistributeIgnoresSessionBudget`).
- **Manual hours.** `handleHoursChange` neither clamps negative hours nor checks the row
  index (popup.js:318-321).
  - The model keeps negative hours as given.
  - An index past the end of the list throws in JavaScript. In the model this is
    `ok == false` with nothing changed.
- **Un-awaited budget update.** `autoDistributeHours` ends by calling `updateTotalHours()`
  without awaiting it. The call's state changes all happen before its first `await`, so the
  model runs them as part of auto-distribution (`Allocation.AutoDistribute`).

## Model

| member | source | states |
|---|---|---|
| Tickets.SecondsToHours | popup.js:194-196 | a tracker time in seconds becomes hours (hours × 3600 = seconds); absent or zero becomes 0 |
| Tickets.Normalise | popup.js:193-211 | every ticket field of an issue: times in hours, hours and percentage 0, tagged with its query |
| Tickets.NormaliseAll | popup.js:164-183 | one ticket per issue, in the search result's order, all tagged alike |
| Tickets.HoursBackToSeconds | popup.js:194-196 | converting a tracker time to hours and back to rounded seconds gives it back |
| Tickets.StatusListMembers | popup.js:215 | the status list holds exactly the non-empty trimmed comma-separated entries, each trimmed and comma-free |
| Tickets.StatusList | popup.js:215 | the configured names: the comma-separated entries, trimmed, blanks dropped (properties in Tickets.StatusListMembers and Tickets.StatusListReadsNames) |
| Tickets.StatusListReadsNames | popup.js:215 | entries that trim to non-empty names, written out with commas, read back as exactly those names in order |
| Tickets.StatusListExample | popup.js:215 | "In Progress, Review" reads as the two names "In Progress" and "Review" |
| Text.TrimRemovesPadding | popup.js:215 | trimming a trimmed string surrounded by any white space gives that string back |
| Text.SplitJoin | popup.js:215 | joining the pieces of a split with the separator gives the string back |
| Text.JoinSplit | popup.js:215 | splitting pieces free of the separator, joined with it, gives the pieces back |
| Tickets.DatePart | popup.js:217 | the date of an `updated` value is its first 'T'-separated piece, a prefix without 'T'; an unset value gives "" |
| Tickets.StatusReason | popup.js:214-232 | the classifier's four outcomes, each iff its condition in priority order: primary status (ignoring case), updated today, fallback origin, otherwise "check logic" |
| Tickets.StatusReasonIgnoresCase | popup.js:219 | the status's letter case never changes the reason |
| Tickets.EmptyStatusListNeverActiveWork | popup.js:215-219 | for any stored list whose every comma-separated entry is blank (the empty string included), the list reads as empty and no ticket is active work |
| Tickets.CheckCapacity | popup.js:350-369 | a warning iff the estimate is positive and logged + new hours exceed it; the overage is the excess and is positive |
| Tickets.CapacityMonotone | popup.js:358-364 | more proposed hours never clear a warning; the overage grows by the difference |
| Fetch.FetchTickets | popup.js:75-212 | missing configuration iff a credential is empty, and then no request; otherwise the exact request sequence (GET, POST iff 405, fallback iff the primary reply is 400); the run succeeds iff the last request's reply is ok, fails with a network error iff that request got no reply, and on success returns that reply's issues normalised, tagged fallback iff the fallback ran; an API error carries the primary reply's non-ok status |
| Fetch.Conclude | popup.js:134-187 | a fallback query is sent iff the primary reply is 400; the answering reply (the fallback's after a 400, else the primary's) decides the result: ok gives its issues normalised, tagged fallback iff it was the fallback; no reply gives a network error; any other status gives an API error with the primary's status |
| Fetch.FallbackFailureReportsPrimary | popup.js:141-187 | when the fallback fails too, the error carries the primary's 400, not the fallback's status |
| Fetch.RetryThenFallback | popup.js:117-187 | 405 then 400 then 200 makes exactly GET, POST, fallback, and returns the fallback's tickets |
| Allocation.PercentOfIsShare | popup.js:321 | the percentage of hours is their share of a positive budget, and 0 otherwise |
| Allocation.SetHours | popup.js:316-321 | the state after an hours edit: that row's hours set and its percentage following (properties in Allocation.SetHoursKeepsViewsConsistent) |
| Allocation.SetPercentage | popup.js:333-338 | the state after a percentage edit: that row's percentage set and its hours following (properties in Allocation.SetPercentageKeepsViewsConsistent) |
| Allocation.HoursOfIsShare | popup.js:338 | the hours of a percentage are that many hundredths of the budget |
| Allocation.SetHoursKeepsViewsConsistent | popup.js:316-321 | an hours edit sets exactly those hours (negatives included); the percentage agrees for a positive budget and is 0 otherwise; no other row, budget or snapshot changes |
| Allocation.SetPercentageKeepsViewsConsistent | popup.js:333-338 | a percentage edit keeps both views consistent for any budget and changes nothing else |
| Allocation.EditsAreInverse | popup.js:316-338 | for a positive budget, editing through one view with the other view's value gives the same state |
| Allocation.HoursList | popup.js:391 | the snapshot lists every row's hours in order |
| Allocation.UpdateTotal | popup.js:371-392 | the state after a budget change: unchanged within 0.01, else rescaled with a new snapshot (properties in Allocation.SmallBudgetChangeIgnored and Allocation.BudgetChangeRescales) |
| Allocation.SmallBudgetChangeIgnored | popup.js:371-375 | a budget change of at most 0.01 leaves the whole state, snapshot included, unchanged |
| Allocation.BudgetChangeRescales | popup.js:371-392 | a larger change sets the budget, keeps every percentage, makes each row's hours its percentage of the new budget (scaling consistent rows by new/old), and sets the snapshot to the new hours |
| Allocation.RescaleExample | popup.js:379-381 | 50% of 6 hours is 3; moving the budget to 8 gives 4 hours at 50% and snapshot [4] |
| Allocation.DistributionBudget | popup.js:492 | the distribution budget is the stored default when set and non-zero, otherwise 6; never 0 |
| Allocation.EligibleFlags | popup.js:510-526 | a row is eligible iff the mode is 'all', or the mode is 'activeWork' and the row has a primary status or was updated today |
| Allocation.Share | popup.js:529 | one eligible row's hours times the number of eligible rows is the budget |
| Allocation.SharePercentageTimesCount | popup.js:529-532 | one eligible row's percentage times the number of eligible rows is 100 |
| Allocation.Distributed | popup.js:495-533 | every row is zeroed, then given the equal share iff it is eligible |
| Allocation.AutoDistribute | popup.js:487-537 | the state after auto-distribution: the distributed rows, then the budget change (properties in Allocation.DistributionAddsUp and Allocation.AutoDistributeKeepsSnapshot) |
| Allocation.EligibleRowGetsShare | popup.js:528-533 | an eligible row keeps its ticket data and gets budget / n hours |
| Allocation.EligibleRowGetsSharePercentage | popup.js:528-533 | an eligible row gets 100 / n percent |
| Allocation.IneligibleRowGetsNothing | popup.js:495-499 | an ineligible row stays at 0 hours and 0 percent |
| Allocation.DistributionAddsUp | popup.js:495-533 | with some eligible row the hours add up to the budget and the percentages to 100; with none every row is 0 |
| Allocation.EvenSplitExample | popup.js:510-533 | 6 hours over three rows in mode 'all' gives 2 hours each |
| Allocation.ActiveWorkMatchesClassifier | popup.js:512-524 | in mode 'activeWork' a row is eligible iff the classifier calls it active work or active today |
| Allocation.ZeroDefaultHoursMeansSix | popup.js:492 | with the budget field at the session budget, a stored default of 0 splits 6 hours in mode 'all' |
| Allocation.AutoDistributeKeepsSnapshot | popup.js:487-537 | auto-distribution with the budget field at the session budget leaves the budget and the snapshot as they were |
| Allocation.AutoDistributeIgnoresSessionBudget | popup.js:492 | with a session budget of 8 and a default of 6, one row gets 6 hours at 100%, inconsistent with the budget of 8 |
| Allocation.Reset | popup.js:539-544 | the state after a reset: every row at its snapshot hours (properties in Allocation.ResetRestoresSnapshot) |
| Allocation.ResetAfterFirstAutoDistributeZeroes | popup.js:539-544 | for any budget the session and its field agree on, a reset after a new popup's first auto-distribution zeroes every row, because the snapshot is still empty |
| Allocation.ResetRestoresSnapshot | popup.js:539-544 | a reset puts each row at its snapshot hours (0 past the snapshot's end) with a consistent percentage, 0 for a non-positive budget |
| Allocation.ResetAfterBudgetChange | popup.js:539-544 | after a change to a positive budget and any edits that keep the budget and snapshot, a reset gives back the rescaled hours and the pre-change percentages |
| Allocation.AllocatedZeroIffNothingPositive | popup.js:411-419 | the allocated total is never negative and is 0 iff no row has positive hours |
| Allocation.BreakdownOf | popup.js:405-459 | the breakdown's totals, warning count, remainder and submit state (properties in Allocation.BreakdownSubmitDisabled) |
| Allocation.BreakdownWarningIsCapacityCheck | popup.js:419-421 | the breakdown's overage test is the capacity check on the row's own hours |
| Allocation.BreakdownSubmitDisabled | popup.js:453-459 | submit is disabled iff no row has positive hours; remaining + allocated = budget |
| Session.AllocationSession.constructor | popup.js:2-4 | a new popup has no rows, a budget of 6 and an empty snapshot |
| Session.AfterRefresh | popup.js:54-73 | the state a refresh leaves: unchanged on a failed query, no rows on an empty result, otherwise the fetched rows auto-distributed (properties in Session.FailedRefreshKeepsSession and Session.RefreshAllSplitsDefaultHours) |
| Session.AllocationSession.HandleHoursChange | popup.js:316-331 | succeeds iff the index is in range; then the state is the hours edit, otherwise unchanged |
| Session.AllocationSession.HandlePercentageChange | popup.js:333-348 | succeeds iff the index is in range; then the state is the percentage edit, otherwise unchanged |
| Session.AllocationSession.UpdateTotalHours | popup.js:371-395 | the rescale loop leaves the state the budget change defines |
| Session.AllocationSession.AutoDistributeHours | popup.js:487-537 | the zeroing and sharing loops, followed by the budget update, leave the auto-distributed state |
| Session.AllocationSession.ResetDistribution | popup.js:539-549 | the loop leaves the reset state |
| Session.AllocationSession.UpdateBreakdown | popup.js:397-463 | the accumulator loop computes the breakdown of the current state |
| Session.AllocationSession.Refresh | popup.js:54-73 | a failed query keeps the rows and shows the error; an empty result empties the list and shows "no tickets"; otherwise the rows are the fetched ones, auto-distributed |
| Session.AllocationSession.Initialize | popup.js:23-42 | the setup section iff the address or the token is empty; otherwise a refresh |
| Session.AllocationSession.SubmitWorkLogs | popup.js:569-592 | the worklogs sent are those up to the first failure; reminders are cleared iff all were logged; success or the error section accordingly |
| Session.FailedRefreshKeepsSession | popup.js:57-72 | a query that throws leaves rows, budget and snapshot unchanged and shows an error |
| Session.RefreshAllSplitsDefaultHours | popup.js:54-73 | with the budget field at the session budget, a refresh in mode 'all' lists exactly the fetched tickets, their hours add up to the default hours and their percentages to 100, and the snapshot is kept |
| Worklogs.Round | popup.js:598 | the rounded value is within half a unit, halves rounded up |
| Worklogs.WorklogFor | popup.js:594-599 | a worklog names the ticket and logs its hours in seconds to within half a second |
| Worklogs.ActiveMembers | popup.js:576 | the rows submitted are exactly those with positive hours |
| Worklogs.ActiveKeepsOrder | popup.js:576 | the filter keeps the rows' order: filtering two runs of rows one after the other gives the two filtered runs one after the other |
| Worklogs.Plan | popup.js:576-580 | one worklog per row with positive hours, in row order |
| Worklogs.PlanEmptyIffNothingPositive | popup.js:576 | nothing is planned iff no row has positive hours |
| Worklogs.FirstFailureFrom | popup.js:578-580 | the first failing request: all earlier ones succeeded, it failed, or none fails |
| Worklogs.Submit | popup.js:569-592 | how a submission ends: all logged, or the first failing worklog's issue with its reply's status (properties in Worklogs.AllLoggedIffEverySucceeds and Worklogs.StopsAtFirstFailure) |
| Worklogs.Sent | popup.js:578-580 | the worklogs sent are a prefix of the plan (the cut-off at the first failure is proved in Worklogs.StopsAtFirstFailure and Worklogs.AllLoggedIffEverySucceeds) |
| Worklogs.PostWorklogs | popup.js:578-580 | the loop sends exactly the requests up to the first failure and reports its outcome |
| Worklogs.AllLoggedIffEverySucceeds | popup.js:578-585 | all logged iff every request succeeds, and then every planned worklog was sent |
| Worklogs.StopsAtFirstFailure | popup.js:578-591 | a failure is the last request sent, every earlier one succeeded, nothing later is sent, and the outcome names its issue |
| Worklogs.SubmitExample | popup.js:576-598 | rows of 2, 0 and 3 hours plan 7200 s and 10800 s; a 401 on the first leaves the second unsent |
| Options.HttpsPrefix | options.js:74-76 | an address starting with "http" (even "httpfoo") is kept; any other gets "https://" |
| Options.StripRemovesOneSlash | options.js:79 | exactly one trailing slash is removed; "x//" becomes "x/" |
| Options.CleanUrl | options.js:74-79 | the stored address: "https://" in front unless it starts with "http", one trailing slash removed (properties in Options.CleanUrlStartsWithHttp and Options.CleanUrlIdempotentIffNoTrailingSlash) |
| Options.CleanUrlStartsWithHttp | options.js:74-79 | the cleaned address always starts with "http" |
| Options.CleanUrlIdempotentIffNoTrailingSlash | options.js:74-79 | cleaning again changes a cleaned address iff it still ends in a slash |
| Options.SaveSettings | options.js:50-100 | refused iff a required field is empty after trimming; a storage error iff it was attempted and failed; otherwise the trimmed settings, with the address rewritten in place, equal to the cleaned address |
| Options.SavedUrlIsClean | options.js:73-79 | a saved address starts with "http" and survives a second save unchanged when it has no trailing slash |
| Options.StatusError | options.js:133-141 | 401 gives invalid credentials, 404 gives URL not found, any other status a generic error carrying it |
| Options.TestConnection | options.js:102-163 | no request iff a required field is missing; the request goes to the cleaned address + "/rest/api/2/myself"; success iff the reply is ok, and then it shows the reply's user; no reply gives a network error; a non-ok status gives the message StatusError maps it to |
| Options.TestIgnoresProjectKey | options.js:116-118 | the test needs only the address, user name and token; the project key changes nothing |
| Options.TestUsesSavedAddress | options.js:121-122 | the test uses the same address that a save stores |
| Options.LoadSettings | options.js:12-48 | each stored time, mode, comment and non-zero default of hours is shown as stored, and each unset one shows its own default (17:00, 'none', "Daily work log", 6); every other field is shown as stored |
| Options.LoadDefaults | options.js:32-43 | with nothing stored: 17:00, 6 hours, weekends off, mode 'none', "Daily work log"; the hours shown are the distribution budget |
| Schedule.SkipWeekend | background.js:30-33 | the skip loop ends on a weekday, moves at most two whole days, and every day it passes is a weekend day |
| Schedule.FirstFire | background.js:20-33 | the first fire is never on a weekend and never before the first try, today's time or tomorrow's |
| Schedule.NextFire | background.js:20-33 | the next-fire computation gives the first fire |
| Schedule.FirstFireIsNextWeekdayOccurrence | background.js:20-33 | for a time of day, the first fire is after now, on a weekday, at the set time of day, within three days, and the earliest such moment |
| Schedule.ParseFormatRoundTrip | background.js:17-18 | reading an "HH:MM" value gives back its hours and minutes; an unset time reads as 17:00 |
| Schedule.ParseTime | background.js:17-18 | the stored time, or 17:00 when unset, read as hours and minutes; none unless both pieces are numbers (properties in Schedule.ParseFormatRoundTrip) |
| Schedule.DefaultTimeReads | background.js:17 | an unset time reads as 17 hours 0 minutes |
| Reminders.NotificationId | background.js:70 | a reminder's notification id starts with "dailyWorkLog" |
| Reminders.DailyAlarmFor | background.js:11-42 | an alarm exists iff the time reads; it repeats every 1440 minutes and falls on a local weekday |
| Reminders.ReminderService.SetupDailyAlarm | background.js:11-42 | the old daily alarm is cleared; a new one at the first fire, repeating every 1440 minutes, iff the time reads |
| Reminders.ReminderService.ShowDailyNotification | background.js:57-126 | badge "LOG", reminder flag set with the time, one notification more, popup asked to open |
| Reminders.ReminderService.ClearReminderAlerts | background.js:152-157 | badge "" and reminder flag cleared |
| Reminders.ReminderService.OnAlarm | background.js:44-55 | the daily alarm shows the reminder only on weekdays; anything not shown changes nothing |
| Reminders.ReminderService.OnNotificationClicked | background.js:128-135 | a click on a reminder clears it, opens the popup and removes the notification; other ids change nothing |
| Reminders.ReminderService.OnButtonClicked | background.js:137-150 | button 0 clears and opens the popup; any other button sets remind-later 30 minutes on; the notification goes either way |
| Reminders.ReminderService.OnMessage | background.js:166-180 | clearReminders, updateNotificationSchedule and testNotification are carried out and answered; testNotification also records the reminder time, which no other message changes; any other action gets no answer and changes nothing |
| Reminders.DailyAlarmIsOnAWeekday | background.js:11-42 | for every time that reads (hours and minutes are never negative, "25:00" included), the daily alarm is after now, on a weekday, a whole number of days after the time set for today, repeating every 24 × 60 minutes |
| Reminders.UnsetTimeMeansFivePm | background.js:17 | with no time stored, the alarm is set for 17:00 |

## Left out

- Rendering: the DOM and HTML markup, the inputs and sliders kept in step, `toFixed`
  formatting, ticket links, and the breakdown's per-row lines. The popup's visible state is
  reduced to the section it shows.
- Browser APIs: `chrome.storage`, `chrome.runtime`, `chrome.tabs`, `chrome.notifications`,
  `chrome.alarms`, `chrome.action` and the `Notification` API. They are state fields or
  parameters. A request to open the popup is counted and its success is not modelled. The
  badge colour and the `Notification` fallback are not modelled.
- I/O: real HTTP, JSON decoding, the Basic authorization header and the JQL text
  (`customJql` and the status filter inside the query). Only status codes and decoded bodies
  are kept. The worklog's comment and start time are not modelled.
- Dates: `toISOString` dates and time zones are inputs. Daylight-saving changes are not
  modelled: a day is always 86 400 000 ms.
- Numbers: IEEE-754 floating point is replaced by exact reals. `parseFloat` results are
  given already parsed, with `None` for NaN.
- Letter case: `toLowerCase` is modelled for ASCII letters only.
- Schedule.ParseTime: `Number()` on a time piece is modelled for decimal digits with white
  space around them only. Other forms such as `7.5` or `0x10` read as not a number.
- Reminders.ReminderService.SetupDailyAlarm: a time that does not read as two numbers
  creates no daily alarm. What the browser does with a NaN `when` is not modelled.
- Schedule.FirstFireIsNextWeekdayOccurrence: proved only for times of day from 00:00 to
  23:59. For hours or minutes out of that range the source can set a first fire in the past,
  and the model computes the same value.
- Concurrency: an in-flight fetch interleaved with user edits, and the un-awaited calls,
  are not modelled. Each handler runs to completion.
- Saving and rescheduling: after a successful save the options page sends
  `updateNotificationSchedule` to the background worker (options.js:92-93). The sending is
  not modelled. The receiving side is `Reminders.ReminderService.OnMessage`, which sets the
  alarm for the saved time.
- Unused settings: `weekendsEnabled`, `otherStatuses` and `worklogComment` are stored and
  loaded but never read by the core.
- Storage housekeeping: the `rawIssue` field, console logging, the reset-settings
  confirmation dialog and the options page's own reaction to the test-notification reply.
- Alarm lifetime: the browser removing a one-shot alarm after it fires is not modelled.
