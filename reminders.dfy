/** The background worker's reminder: the daily alarm, the alarm handlers' weekend guard,
    the badge and `reminderActive` flag a reminder sets and a clear resets, the notification
    and its two buttons, and the messages the popup and the options page send. */
module Reminders {
  import opened Wrappers
  import opened Text
  import opened Schedule

  /** A browser alarm: when it first fires (milliseconds since the epoch) and, for a
      repeating alarm, its period in minutes. */
  datatype Alarm = Alarm(when: int, periodInMinutes: Option<int>)

  /** The clock: `Date.now()` and the local time zone's offset from it. */
  datatype Clock = Clock(epochMs: nat, utcOffsetMs: int) {
    function Local(): int { epochMs + utcOffsetMs }
  }

  const DailyAlarm: string := "dailyWorkLog"
  const RemindLaterAlarm: string := "remindLater"
  const BadgeText: string := "LOG"
  const RemindLaterMinutes: int := 30

  /** The decimal digits of a number, as string concatenation writes it. */
  function Decimal(n: nat): (s: string)
    ensures |s| >= 1
  {
    if n < 10 then [('0' as int + n) as char] else Decimal(n / 10) + [('0' as int + n % 10) as char]
  }

  /** The id of a reminder shown at `epochMs`. */
  function NotificationId(epochMs: nat): (id: string)
    ensures StartsWith(id, DailyAlarm)
  {
    DailyAlarm + "_" + Decimal(epochMs)
  }

  /** The daily alarm `setupDailyAlarm` creates for the stored time, or none when the time
      does not read as two numbers. */
  function DailyAlarmFor(storedTime: string, clock: Clock): (alarm: Option<Alarm>)
    ensures alarm.Some? <==> ParseTime(storedTime).Some?
    ensures alarm.Some? ==>
      alarm.value.periodInMinutes == Some(RepeatMinutes) && !OnWeekend(alarm.value.when + clock.utcOffsetMs)
  {
    match ParseTime(storedTime)
    case None => None
    case Some((h, m)) => Some(Alarm(FirstFire(clock.Local(), h, m) - clock.utcOffsetMs, Some(RepeatMinutes)))
  }

  /** The messages the worker answers. */
  datatype Action = ClearReminders | UpdateNotificationSchedule | TestNotification | Other(name: string)

  class ReminderService {
    var badge: string
    var reminderActive: bool
    var reminderTime: Option<int>
    var alarms: map<string, Alarm>
    var notifications: set<string>
    var popupOpenings: nat

    /** A freshly installed worker, before its first alarm is set. */
    constructor ()
      ensures badge == "" && !reminderActive && reminderTime == None
      ensures alarms == map[] && notifications == {} && popupOpenings == 0
    {
      badge := "";
      reminderActive := false;
      reminderTime := None;
      alarms := map[];
      notifications := {};
      popupOpenings := 0;
    }

    /** `setupDailyAlarm`: the old daily alarm cleared and, when the stored time reads, a new
        one set for the first weekday occurrence of it after now, repeating daily. */
    method SetupDailyAlarm(storedTime: string, clock: Clock)
      modifies this`alarms
      ensures DailyAlarmFor(storedTime, clock).None? ==> alarms == old(alarms) - {DailyAlarm}
      ensures DailyAlarmFor(storedTime, clock).Some? ==>
        alarms == old(alarms)[DailyAlarm := DailyAlarmFor(storedTime, clock).value]
    {
      alarms := alarms - {DailyAlarm};
      var time := ParseTime(storedTime);
      if time.Some? {
        var (hours, minutes) := time.value;
        var fire := NextFire(clock.Local(), hours, minutes);
        alarms := alarms[DailyAlarm := Alarm(fire - clock.utcOffsetMs, Some(RepeatMinutes))];
      }
    }

    /** `showDailyNotification`: the badge shows LOG, a notification is shown, the popup is
        asked to open and the reminder flag is set with the time. */
    method ShowDailyNotification(clock: Clock)
      modifies this`badge, this`reminderActive, this`reminderTime, this`notifications, this`popupOpenings
      ensures badge == BadgeText && reminderActive && reminderTime == Some(clock.epochMs)
      ensures notifications == old(notifications) + {NotificationId(clock.epochMs)}
      ensures popupOpenings == old(popupOpenings) + 1
    {
      badge := BadgeText;
      notifications := notifications + {NotificationId(clock.epochMs)};
      popupOpenings := popupOpenings + 1;
      reminderActive := true;
      reminderTime := Some(clock.epochMs);
    }

    /** `clearReminderAlerts`: the badge emptied and the flag reset. */
    method ClearReminderAlerts()
      modifies this`badge, this`reminderActive
      ensures badge == "" && !reminderActive
    {
      badge := "";
      reminderActive := false;
    }

    /** The two alarm listeners: the daily alarm shows the reminder on weekdays only; the
        remind-later alarm always shows it; any other alarm does nothing. */
    method OnAlarm(name: string, clock: Clock)
      modifies this
      ensures var shown := name == RemindLaterAlarm || (name == DailyAlarm && !OnWeekend(clock.Local()));
        && (shown ==> badge == BadgeText && reminderActive && reminderTime == Some(clock.epochMs)
                      && notifications == old(notifications) + {NotificationId(clock.epochMs)}
                      && popupOpenings == old(popupOpenings) + 1)
        && (!shown ==> badge == old(badge) && reminderActive == old(reminderActive)
                       && reminderTime == old(reminderTime) && notifications == old(notifications)
                       && popupOpenings == old(popupOpenings))
      ensures alarms == old(alarms)
    {
      if name == DailyAlarm {
        var today := Weekday(clock.Local());
        if today == 0 || today == 6 {
          return;
        }
        ShowDailyNotification(clock);
      }
      if name == RemindLaterAlarm {
        ShowDailyNotification(clock);
      }
    }

    /** A click on a reminder clears it and opens the popup; clicks on other notifications
        are ignored. */
    method OnNotificationClicked(id: string)
      modifies this
      ensures StartsWith(id, DailyAlarm) ==>
        && badge == "" && !reminderActive && popupOpenings == old(popupOpenings) + 1
        && notifications == old(notifications) - {id}
      ensures !StartsWith(id, DailyAlarm) ==>
        badge == old(badge) && reminderActive == old(reminderActive)
        && popupOpenings == old(popupOpenings) && notifications == old(notifications)
      ensures alarms == old(alarms) && reminderTime == old(reminderTime)
    {
      if StartsWith(id, DailyAlarm) {
        ClearReminderAlerts();
        popupOpenings := popupOpenings + 1;
        notifications := notifications - {id};
      }
    }

    /** The reminder's buttons: the first clears the reminder and opens the popup, any other
        sets the remind-later alarm 30 minutes on; either way the notification goes. */
    method OnButtonClicked(id: string, buttonIndex: int, clock: Clock)
      modifies this
      ensures StartsWith(id, DailyAlarm) && buttonIndex == 0 ==>
        && badge == "" && !reminderActive && popupOpenings == old(popupOpenings) + 1
        && alarms == old(alarms)
      ensures StartsWith(id, DailyAlarm) && buttonIndex != 0 ==>
        && badge == old(badge) && reminderActive == old(reminderActive)
        && popupOpenings == old(popupOpenings)
        && alarms == old(alarms)[RemindLaterAlarm := Alarm(clock.epochMs + RemindLaterMinutes * MsPerMinute, None)]
      ensures StartsWith(id, DailyAlarm) ==> notifications == old(notifications) - {id}
      ensures !StartsWith(id, DailyAlarm) ==>
        && badge == old(badge) && reminderActive == old(reminderActive) && alarms == old(alarms)
        && popupOpenings == old(popupOpenings) && notifications == old(notifications)
      ensures reminderTime == old(reminderTime)
    {
      if StartsWith(id, DailyAlarm) {
        if buttonIndex == 0 {
          ClearReminderAlerts();
          popupOpenings := popupOpenings + 1;
        } else {
          alarms := alarms[RemindLaterAlarm := Alarm(clock.epochMs + RemindLaterMinutes * MsPerMinute, None)];
        }
        notifications := notifications - {id};
      }
    }

    /** The message listener: the three known actions are carried out and answered with
        success; any other message gets no answer and changes nothing. */
    method OnMessage(action: Action, storedTime: string, clock: Clock) returns (replied: bool)
      modifies this
      ensures replied <==> !action.Other?
      ensures action == ClearReminders ==>
        && badge == "" && !reminderActive && alarms == old(alarms)
        && notifications == old(notifications) && popupOpenings == old(popupOpenings)
      ensures action == UpdateNotificationSchedule ==>
        && badge == old(badge) && reminderActive == old(reminderActive)
        && notifications == old(notifications) && popupOpenings == old(popupOpenings)
        && (DailyAlarmFor(storedTime, clock).None? ==> alarms == old(alarms) - {DailyAlarm})
        && (DailyAlarmFor(storedTime, clock).Some? ==>
              alarms == old(alarms)[DailyAlarm := DailyAlarmFor(storedTime, clock).value])
      ensures action == TestNotification ==>
        && badge == BadgeText && reminderActive && alarms == old(alarms)
        && notifications == old(notifications) + {NotificationId(clock.epochMs)}
        && popupOpenings == old(popupOpenings) + 1
      ensures action.Other? ==>
        && badge == old(badge) && reminderActive == old(reminderActive) && alarms == old(alarms)
        && notifications == old(notifications) && popupOpenings == old(popupOpenings)
      ensures action == TestNotification ==> reminderTime == Some(clock.epochMs)
      ensures action != TestNotification ==> reminderTime == old(reminderTime)
    {
      match action {
        case UpdateNotificationSchedule =>
          SetupDailyAlarm(storedTime, clock);
          replied := true;
        case TestNotification =>
          ShowDailyNotification(clock);
          replied := true;
        case ClearReminders =>
          ClearReminderAlerts();
          replied := true;
        case Other(_) =>
          replied := false;
      }
    }
  }

  /** For a time of day the daily alarm is set for a weekday moment after now, at that time
      of day, repeating every 1440 minutes. */
  lemma DailyAlarmIsOnAWeekday(storedTime: string, clock: Clock)
    requires ParseTime(storedTime).Some?
    ensures var alarm := DailyAlarmFor(storedTime, clock);
      var (h, m) := ParseTime(storedTime).value;
      && alarm.Some? && alarm.value.periodInMinutes == Some(24 * 60)
      && alarm.value.when > clock.epochMs
      && !OnWeekend(alarm.value.when + clock.utcOffsetMs)
      && (alarm.value.when + clock.utcOffsetMs - Candidate(clock.Local(), h, m)) % MsPerDay == 0
  {
    var (h, m) := ParseTime(storedTime).value;
    var now := clock.Local();
    var c := Candidate(now, h, m);
    assert DayOf(now) * MsPerDay <= now < DayOf(now) * MsPerDay + MsPerDay;
    assert c >= DayOf(now) * MsPerDay;
    assert FirstTry(now, h, m) > now;
    assert (FirstTry(now, h, m) - c) % MsPerDay == 0;
  }

  /** With no time stored the alarm is set for 17:00. */
  lemma UnsetTimeMeansFivePm(clock: Clock)
    ensures DailyAlarmFor("", clock) == Some(Alarm(FirstFire(clock.Local(), 17, 0) - clock.utcOffsetMs, Some(1440)))
  {
    DefaultTimeReads();
  }
}
