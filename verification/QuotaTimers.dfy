/** The planning of the next quota reset, as the object the program updates in place. */
module QuotaTimers {
  import opened Calendar

  /** The part of `BPSMeter` that plans the reset. */
  class QuotaTimer {
    var plan: Plan
    var qTime: int

    /** The loop of `this_week`. */
    static method ThisWeek(t0: int) returns (start: int)
      ensures start == Calendar.ThisWeek(t0)
    {
      var t := t0;
      while WeekDay(DayOf(t)) != 0
        invariant Calendar.ThisWeek(t) == Calendar.ThisWeek(t0)
        decreases WeekDay(DayOf(t))
      {
        t := t - DAY;
      }
      start := MakeTime(LocalDay(t), 0, 0);
    }

    method WeeklyFrom(t: int) returns (from: int)
      ensures from == Calendar.WeeklyFrom(plan, t)
    {
      var today := WeekDay(DayOf(t)) + 1;
      from := t;
      if plan.day < today || (plan.day == today && Passed(plan, t)) {
        var monday := ThisWeek(t);
        from := monday + 7 * DAY;
      }
    }

    method Date(t: int) returns (date: Civil)
      requires plan.day >= 1 && !plan.period.Other?
      ensures date == ResetDate(plan, t)
    {
      if plan.period.Daily? {
        date := DailyDate(plan, t);
      } else if plan.period.Weekly? {
        var from := WeeklyFrom(t);
        date := LocalDay(WeeklyMoment(plan, from));
      } else {
        date := MonthlyDate(plan, t);
      }
    }

    method NextReset(t: int)
      requires plan.day >= 1
      modifies this`qTime
      ensures qTime == if plan.period.Other? then old(qTime) else MakeTime(ResetDate(plan, t), plan.hour, plan.minute)
    {
      if !plan.period.Other? {
        var date := Date(t);
        qTime := MakeTime(date, plan.hour, plan.minute);
      }
    }
  }
}
