/**
 The two alarm decisions of Notification.java: `setDelay`, a one-shot alarm on
 the elapsed-realtime clock, and `setSchedule`, which maps the repeat-type
 string to a one-time or repeating wall-clock alarm. An `Alarm` value is the
 argument list handed to AlarmManager.set / setRepeating.
 */
module Alarms {
  import opened JavaTypes
  import opened Attributes

  /** AlarmManager.ELAPSED_REALTIME_WAKEUP and AlarmManager.RTC_WAKEUP. */
  datatype Clock = ElapsedRealtimeWakeup | RtcWakeup

  datatype Alarm =
    | OneShot(clock: Clock, triggerAt: Long)
    | Repeating(clock: Clock, triggerAt: Long, interval: Long)

  const MinuteMillis: Long := 60000
  /** AlarmManager.INTERVAL_HOUR, INTERVAL_HALF_DAY and INTERVAL_DAY. */
  const IntervalHour: Long := 3600000
  const IntervalHalfDay: Long := 43200000
  const IntervalDay: Long := 86400000

  /** Repeat types that all fall back to the daily interval. */
  const CalendarRepeatTypes: set<string> := {"day", "week", "month", "year"}

  /** Every repeat type `setSchedule` recognises. */
  const RepeatTypes: set<string> := {"time", "minute", "hour", "halfDay"} + CalendarRepeatTypes

  /** setDelay: fire once, `delay` ms after the current elapsed-realtime reading. */
  function DelayAlarm(a: Attributes, now: Long): (r: Alarm)
    ensures r.OneShot? && r.clock == ElapsedRealtimeWakeup
    ensures MinLong <= now + a.delay <= MaxLong ==> r.triggerAt == now + a.delay
    ensures (r.triggerAt - (now + a.delay)) % LongModulus == 0
  {
    OneShot(ElapsedRealtimeWakeup, LongAdd(now, a.delay))
  }

  /** setSchedule: the switch over `repeatType`. */
  function ScheduleAlarm(a: Attributes): (r: Alarm)
    ensures r.clock == RtcWakeup && r.triggerAt == a.sendAt
    ensures r.Repeating? <==> a.repeatType.Some? && a.repeatType.value in RepeatTypes
  {
    match a.repeatType
    case None => OneShot(RtcWakeup, a.sendAt)
    case Some(t) =>
      if t == "time" then Repeating(RtcWakeup, a.sendAt, a.repeatTime)
      else if t == "minute" then Repeating(RtcWakeup, a.sendAt, MinuteMillis)
      else if t == "hour" then Repeating(RtcWakeup, a.sendAt, IntervalHour)
      else if t == "halfDay" then Repeating(RtcWakeup, a.sendAt, IntervalHalfDay)
      else if t in CalendarRepeatTypes then Repeating(RtcWakeup, a.sendAt, IntervalDay)
      else OneShot(RtcWakeup, a.sendAt)
  }

  /** The repeat interval of each recognised type, as a lookup table. */
  function IntervalTable(repeatTime: Long): (m: map<string, Long>)
    ensures m.Keys == RepeatTypes
  {
    map["time" := repeatTime, "minute" := MinuteMillis, "hour" := IntervalHour,
        "halfDay" := IntervalHalfDay, "day" := IntervalDay, "week" := IntervalDay,
        "month" := IntervalDay, "year" := IntervalDay]
  }

  /** The schedule alarm agrees with the table: repeating with the table's interval
      for a listed type, one-shot at `sendAt` for null or any other string. */
  lemma ScheduleMatchesTable(a: Attributes)
    ensures a.repeatType.Some? && a.repeatType.value in RepeatTypes ==>
              ScheduleAlarm(a) == Repeating(RtcWakeup, a.sendAt, IntervalTable(a.repeatTime)[a.repeatType.value])
    ensures a.repeatType.None? || a.repeatType.value !in RepeatTypes ==>
              ScheduleAlarm(a) == OneShot(RtcWakeup, a.sendAt)
  {
  }

  /** A null or unrecognised repeat type gives a one-time wall-clock alarm at `sendAt`. */
  lemma UnknownRepeatTypeIsOneShot(a: Attributes)
    requires a.repeatType.None? || a.repeatType.value !in RepeatTypes
    ensures ScheduleAlarm(a) == OneShot(RtcWakeup, a.sendAt)
  {
  }

  /** The four sub-daily types: "time" uses the caller's `repeatTime`, the others fixed intervals. */
  lemma SubDailyIntervals(a: Attributes)
    ensures a.repeatType == Some("time") ==> ScheduleAlarm(a) == Repeating(RtcWakeup, a.sendAt, a.repeatTime)
    ensures a.repeatType == Some("minute") ==> ScheduleAlarm(a) == Repeating(RtcWakeup, a.sendAt, 60000)
    ensures a.repeatType == Some("hour") ==> ScheduleAlarm(a) == Repeating(RtcWakeup, a.sendAt, 3600000)
    ensures a.repeatType == Some("halfDay") ==> ScheduleAlarm(a) == Repeating(RtcWakeup, a.sendAt, 43200000)
  {
  }

  /** "day", "week", "month" and "year" cannot be told apart: all repeat every 24 hours,
      and the alarm depends only on `sendAt`. */
  lemma CalendarTypesShareDailyAlarm(a: Attributes, b: Attributes)
    requires a.repeatType.Some? && a.repeatType.value in CalendarRepeatTypes
    requires b.repeatType.Some? && b.repeatType.value in CalendarRepeatTypes
    requires a.sendAt == b.sendAt
    ensures ScheduleAlarm(a) == ScheduleAlarm(b)
    ensures ScheduleAlarm(a).Repeating? && ScheduleAlarm(a).interval == 86400000
  {
  }
}
