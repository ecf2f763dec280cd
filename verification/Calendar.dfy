/**
 Calendar arithmetic of the byte meter, in a zone with a fixed offset: the ends of days, weeks and months, and the next
 moment at which a quota is reset. A time is a number of whole seconds since the start of 1901 in local time. Every
 fourth year is a leap year, as the program has it; that is the calendar from 1901 to 2099.
 */
module Calendar {

  const DAY := 86400

  /** A local date; `year` counts from 1901. */
  datatype Civil = Civil(year: int, month: int, day: int)

  // ---------------------------------------------------------------------------------------------------- the calendar

  predicate IsLeap(year: int) {
    (year + 1901) % 4 == 0
  }

  /** Days before the first of January. */
  function YearStart(year: int): int {
    365 * year + year / 4
  }

  /** Days of an ordinary year before the month. */
  function MonthOffset(month: int): int
    requires 1 <= month <= 13
  {
    [0, 31, 59, 90, 120, 151, 181, 212, 243, 273, 304, 334, 365][month - 1]
  }

  function MonthStart(year: int, month: int): int
    requires 1 <= month <= 13
  {
    YearStart(year) + MonthOffset(month) + (if month > 2 && IsLeap(year) then 1 else 0)
  }

  /** `last_month_day`. */
  function LastMonthDay(year: int, month: int): int
    requires 1 <= month <= 12
  {
    var day := [31, 28, 31, 30, 31, 30, 31, 31, 30, 31, 30, 31][month - 1];
    if day == 28 && IsLeap(year) then 29 else day
  }

  predicate Valid(c: Civil) {
    1 <= c.month <= 12 && 1 <= c.day <= LastMonthDay(c.year, c.month)
  }

  /** The number of the day of a date; it is what `mktime` computes. */
  function DayNumber(c: Civil): int
    requires Valid(c)
  {
    MonthStart(c.year, c.month) + c.day - 1
  }

  function YearOf(d: int): int {
    var left := d % 1461;
    4 * (d / 1461) + (if left / 365 < 3 then left / 365 else 3)
  }

  /** The month of a day of the year. */
  function MonthFrom(year: int, d: int, month: int): int
    requires 1 <= month <= 12
    decreases 12 - month
  {
    if month == 12 || d < MonthStart(year, month + 1) then month else MonthFrom(year, d, month + 1)
  }

  /** The date of a day; it is what `localtime` computes. */
  function CivilOf(d: int): Civil {
    var year := YearOf(d);
    var month := MonthFrom(year, d, 1);
    Civil(year, month, d - MonthStart(year, month) + 1)
  }

  /** Monday is 0; the first day of 1901 was a Tuesday. */
  function WeekDay(d: int): int {
    (d + 1) % 7
  }

  /** Each day of the week follows the one before it, and 1 January 2000 was a Saturday, in a leap year. */
  lemma WeekDaysFollow(d: int)
    ensures 0 <= WeekDay(d) <= 6 && WeekDay(d + 1) == (if WeekDay(d) == 6 then 0 else WeekDay(d) + 1)
    ensures WeekDay(DayNumber(Civil(2000 - 1901, 1, 1))) == 5 && IsLeap(2000 - 1901) && !IsLeap(2001 - 1901)
  {
  }

  // --------------------------------------------------------------------------------------- localtime undoes mktime

  lemma YearStartNext(year: int)
    ensures YearStart(year + 1) == YearStart(year) + (if IsLeap(year) then 366 else 365)
    ensures MonthStart(year, 13) == YearStart(year + 1) && MonthStart(year, 1) == YearStart(year)
  {
  }

  lemma YearStartMono(x: int, y: int)
    requires x < y
    ensures YearStart(x + 1) <= YearStart(y)
  {
  }

  lemma YearOfBounds(d: int)
    ensures YearStart(YearOf(d)) <= d < YearStart(YearOf(d) + 1)
  {
  }

  /** The first of the next month follows the last of this one. */
  lemma MonthStartNext(year: int, month: int)
    requires 1 <= month <= 12
    ensures MonthStart(year, month + 1) == MonthStart(year, month) + LastMonthDay(year, month)
  {
  }

  lemma {:induction false} MonthFromBounds(year: int, d: int, month: int)
    requires 1 <= month <= 12 && MonthStart(year, month) <= d < MonthStart(year, 13)
    ensures var m := MonthFrom(year, d, month); month <= m <= 12 && MonthStart(year, m) <= d < MonthStart(year, m + 1)
    decreases 12 - month
  {
    if month < 12 && d >= MonthStart(year, month + 1) {
      MonthFromBounds(year, d, month + 1);
    }
  }

  /** `localtime` gives a valid date, and `mktime` takes it back. */
  lemma CivilRoundTrip(d: int)
    ensures Valid(CivilOf(d)) && DayNumber(CivilOf(d)) == d
  {
    var year := YearOf(d);
    YearOfBounds(d);
    YearStartNext(year);
    MonthFromBounds(year, d, 1);
    MonthStartNext(year, MonthFrom(year, d, 1));
  }

  lemma {:induction false} MonthStartMono(year: int, m: int, n: int)
    requires 1 <= m < n <= 13
    ensures MonthStart(year, m + 1) <= MonthStart(year, n)
    decreases n
  {
    if m + 1 < n {
      MonthStartNext(year, n - 1);
      MonthStartMono(year, m, n - 1);
    }
  }

  /** A day belongs to one month only. */
  lemma MonthIsUnique(d: int, c: Civil)
    requires 1 <= c.month <= 12 && MonthStart(c.year, c.month) <= d < MonthStart(c.year, c.month + 1)
    ensures CivilOf(d) == Civil(c.year, c.month, d - MonthStart(c.year, c.month) + 1)
  {
    CivilRoundTrip(d);
    var year := YearOf(d);
    YearOfBounds(d);
    YearStartNext(c.year);
    YearStartNext(year);
    if c.month < 12 {
      MonthStartMono(c.year, c.month, 13);
    }
    if c.month > 1 {
      MonthStartMono(c.year, 1, c.month);
    }
    if c.year < year {
      YearStartMono(c.year, year);
    } else if year < c.year {
      YearStartMono(year, c.year);
    }
    assert year == c.year;
    var month := MonthFrom(year, d, 1);
    MonthFromBounds(year, d, 1);
    if month < c.month {
      MonthStartMono(year, month, c.month);
    } else if c.month < month {
      MonthStartMono(year, c.month, month);
    }
  }

  /** `mktime` of a valid date is taken back by `localtime`. */
  lemma DayNumberRoundTrip(c: Civil)
    requires Valid(c)
    ensures CivilOf(DayNumber(c)) == c
  {
    MonthStartNext(c.year, c.month);
    MonthIsUnique(DayNumber(c), c);
  }

  // -------------------------------------------------------------------------------- the ends of days, weeks, months

  function DayOf(t: int): int {
    t / DAY
  }

  function MinuteOf(t: int): int {
    t % DAY / 60
  }

  function LocalDate(t: int): Civil {
    CivilOf(DayOf(t))
  }

  /** `mktime`, at a whole minute. */
  function MakeTime(c: Civil, hour: int, minute: int): int
    requires Valid(c)
  {
    DayNumber(c) * DAY + hour * 3600 + minute * 60
  }

  /** A valid date, for a function that needs one. */
  function LocalDay(t: int): (c: Civil)
    ensures Valid(c) && c == LocalDate(t) && DayNumber(c) == DayOf(t)
  {
    CivilRoundTrip(DayOf(t));
    LocalDate(t)
  }

  /** `tomorrow`. */
  function Tomorrow(t: int): int {
    MakeTime(LocalDay(t), 0, 0) + DAY
  }

  /** `this_week`, as its loop computes it. */
  function ThisWeek(t: int): int
    decreases WeekDay(DayOf(t))
  {
    if WeekDay(DayOf(t)) == 0 then MakeTime(LocalDay(t), 0, 0) else ThisWeek(t - DAY)
  }

  /** `next_week`. */
  function NextWeek(t: int): int {
    ThisWeek(t) + 7 * DAY
  }

  /** The month after this one. */
  function FollowingMonth(c: Civil): (r: Civil)
    requires Valid(c)
    ensures Valid(r) && r.day == 1
  {
    if c.month == 12 then Civil(c.year + 1, 1, 1) else Civil(c.year, c.month + 1, 1)
  }

  /** `next_month`. */
  function NextMonth(t: int): int {
    MakeTime(FollowingMonth(LocalDay(t)), 0, 0)
  }

  lemma WeekDayBefore(d: int)
    requires WeekDay(d) != 0
    ensures WeekDay(d - 1) == WeekDay(d) - 1
  {
  }

  lemma {:induction false} ThisWeekIsMonday(t: int)
    ensures ThisWeek(t) == (DayOf(t) - WeekDay(DayOf(t))) * DAY
    decreases WeekDay(DayOf(t))
  {
    var d := DayOf(t);
    if WeekDay(d) == 0 {
      CivilRoundTrip(d);
    } else {
      assert DayOf(t - DAY) == d - 1;
      WeekDayBefore(d);
      ThisWeekIsMonday(t - DAY);
    }
  }

  lemma FollowingMonthStarts(c: Civil)
    requires Valid(c)
    ensures DayNumber(FollowingMonth(c)) == MonthStart(c.year, c.month) + LastMonthDay(c.year, c.month)
  {
    MonthStartNext(c.year, c.month);
    YearStartNext(c.year);
    YearStartNext(c.year + 1);
  }

  /** A time is its day and the seconds since midnight. */
  lemma At(d: int, sec: int)
    requires 0 <= sec < DAY
    ensures DayOf(d * DAY + sec) == d && (d * DAY + sec) % DAY == sec
  {
  }

  lemma DaysInOrder(t: int, x: int)
    requires t <= x
    ensures DayOf(t) <= DayOf(x)
  {
  }

  predicate IsMidnight(x: int) {
    x % DAY == 0
  }

  /** A midnight after t is on a later day. */
  lemma LaterMidnight(t: int, x: int)
    ensures IsMidnight(x) ==> x == DayOf(x) * DAY
    ensures IsMidnight(x) && t < x ==> DayOf(t) < DayOf(x)
    ensures t < (DayOf(t) + 1) * DAY
  {
  }

  /** The day ends at the first midnight after t. */
  lemma TomorrowIsNext(t: int, x: int)
    ensures IsMidnight(Tomorrow(t)) && t < Tomorrow(t) && (IsMidnight(x) && t < x ==> Tomorrow(t) <= x)
  {
    LaterMidnight(t, x);
    At(DayOf(t) + 1, 0);
    assert Tomorrow(t) == (DayOf(t) + 1) * DAY;
  }

  lemma MondayIsNext(d: int, e: int)
    requires WeekDay(e) == 0 && d < e
    ensures d - WeekDay(d) + 7 <= e
  {
  }

  /** The week ends at the first midnight of a Monday after t. */
  lemma NextWeekIsNext(t: int, x: int)
    ensures IsMidnight(NextWeek(t)) && WeekDay(DayOf(NextWeek(t))) == 0 && t < NextWeek(t)
    ensures IsMidnight(x) && WeekDay(DayOf(x)) == 0 && t < x ==> NextWeek(t) <= x
  {
    var d := DayOf(t);
    ThisWeekIsMonday(t);
    assert NextWeek(t) == (d - WeekDay(d)) * DAY + 7 * DAY;
    MondayStarts(d);
    LaterMidnight(t, x);
    if IsMidnight(x) && WeekDay(DayOf(x)) == 0 && t < x {
      MondayIsNext(d, DayOf(x));
    }
  }

  /** The Monday after a day begins at its midnight. */
  lemma MondayStarts(d: int)
    ensures var monday, time := d - WeekDay(d) + 7, (d - WeekDay(d)) * DAY + 7 * DAY;
      time == monday * DAY && DayOf(time) == monday && IsMidnight(time) && WeekDay(monday) == 0 && d < monday
  {
    At(d - WeekDay(d) + 7, 0);
  }

  /** The month ends at the first midnight of a first of a month after t. */
  lemma NextMonthIsNext(t: int, x: int)
    ensures IsMidnight(NextMonth(t)) && LocalDate(NextMonth(t)).day == 1 && t < NextMonth(t)
    ensures LocalDate(x).day == 1 && t < x && IsMidnight(x) ==> NextMonth(t) <= x
  {
    var c := LocalDay(t);
    NextMonthDay(t);
    LaterMidnight(t, x);
    FollowingMonthStarts(c);
    MonthStartNext(c.year, c.month);
    DayNumberRoundTrip(FollowingMonth(c));
    if t < x < NextMonth(t) && IsMidnight(x) {
      SameMonth(t, x);
    }
  }

  lemma NextMonthDay(t: int)
    ensures NextMonth(t) == DayNumber(FollowingMonth(LocalDay(t))) * DAY
    ensures DayOf(NextMonth(t)) == DayNumber(FollowingMonth(LocalDay(t))) && LocalDay(NextMonth(t)) == FollowingMonth(LocalDay(t))
    ensures IsMidnight(NextMonth(t))
  {
    At(DayNumber(FollowingMonth(LocalDay(t))), 0);
    DayNumberRoundTrip(FollowingMonth(LocalDay(t)));
  }

  /** Until the next month begins, it is this month. */
  lemma SameMonth(t: int, x: int)
    requires t <= x < NextMonth(t)
    ensures DayOf(x) < DayNumber(FollowingMonth(LocalDay(t)))
    ensures var c, e := LocalDay(t), LocalDay(x);
      e.year == c.year && e.month == c.month && e.day - c.day == DayOf(x) - DayOf(t)
  {
    DaysInOrder(t, x);
    NextMonthDay(t);
    SameMonthDays(DayOf(t), DayOf(x));
  }

  lemma SameMonthDays(d: int, e: int)
    requires Valid(CivilOf(d)) && d <= e < DayNumber(FollowingMonth(CivilOf(d)))
    ensures var c, c1 := CivilOf(d), CivilOf(e); c1.year == c.year && c1.month == c.month && c1.day - c.day == e - d
  {
    var c := CivilOf(d);
    CivilRoundTrip(d);
    FollowingMonthStarts(c);
    MonthStartNext(c.year, c.month);
    MonthIsUnique(e, c);
  }

  // ------------------------------------------------------------------------------------------ the next quota reset

  datatype Period = Daily | Weekly | Monthly | Other

  datatype Plan = Plan(period: Period, day: int, hour: int, minute: int)

  /** What `get_quota` leaves, for a time of day that exists. */
  predicate PlanOk(p: Plan) {
    && 0 <= p.hour < 24 && 0 <= p.minute < 60
    && (p.period.Weekly? ==> 1 <= p.day <= 7) && (p.period.Monthly? ==> 1 <= p.day <= 31)
  }

  predicate Passed(p: Plan, t: int) {
    MinuteOf(t) >= p.hour * 60 + p.minute
  }

  function Min(a: int, b: int): int {
    if a <= b then a else b
  }

  function DailyDate(p: Plan, t: int): (c: Civil)
    ensures Valid(c)
  {
    LocalDay(if Passed(p, t) then MakeTime(LocalDay(t), p.hour, p.minute) + DAY else t)
  }

  function WeeklyFrom(p: Plan, t: int): int {
    var today := WeekDay(DayOf(t)) + 1;
    if p.day < today || (p.day == today && Passed(p, t)) then NextWeek(t) else t
  }

  /** The day of the week, counted from the day of `from`. */
  function WeeklyMoment(p: Plan, from: int): int {
    var gap := p.day - WeekDay(DayOf(from)) - 1;
    from + (if gap >= 0 then gap else -gap) * DAY
  }

  function WeeklyDate(p: Plan, t: int): (c: Civil)
    ensures Valid(c)
  {
    LocalDay(WeeklyMoment(p, WeeklyFrom(p, t)))
  }

  /** This month's day lies behind, or is today and is over. */
  predicate Behind(p: Plan, t: int) {
    var c := LocalDay(t);
    p.day < c.day || (p.day == c.day && Passed(p, t))
  }

  function MonthlyDate(p: Plan, t: int): (c: Civil)
    requires p.day >= 1
    ensures Valid(c)
  {
    var d := if Behind(p, t) then LocalDay(NextMonth(t)) else LocalDay(t);
    Civil(d.year, d.month, Min(LastMonthDay(d.year, d.month), p.day))
  }

  function ResetDate(p: Plan, t: int): (c: Civil)
    requires p.day >= 1
    ensures Valid(c)
  {
    match p.period
    case Daily => DailyDate(p, t)
    case Weekly => WeeklyDate(p, t)
    case Monthly => MonthlyDate(p, t)
    case Other => LocalDay(t)
  }

  /** `next_reset`: the new `q_time`, given the one before. */
  function NextReset(p: Plan, t: int, qTime: int): int
    requires p.day >= 1
  {
    if p.period.Other? then qTime else MakeTime(ResetDate(p, t), p.hour, p.minute)
  }

  /** Without a period the moment stays as it was, and it is not asked what it was otherwise. */
  lemma OldMomentCounts(p: Plan, t: int, qTime: int)
    requires p.day >= 1
    ensures if p.period.Other? then NextReset(p, t, qTime) == qTime else NextReset(p, t, qTime) == NextReset(p, t, 0)
  {
  }

  /** A day on which the quota is to be reset. In a month that is too short for the day it is the last one. */
  predicate DayMatches(p: Plan, d: int) {
    && (p.period.Weekly? ==> WeekDay(d) + 1 == p.day)
    && (p.period.Monthly? ==> var c := CivilOf(d); 1 <= c.month <= 12 && c.day == Min(LastMonthDay(c.year, c.month), p.day))
  }

  function TimeOfDay(p: Plan): int {
    p.hour * 3600 + p.minute * 60
  }

  predicate Matches(p: Plan, x: int) {
    x % DAY == TimeOfDay(p) && DayMatches(p, DayOf(x))
  }

  /** The earliest match strictly after t. */
  ghost predicate IsNext(p: Plan, t: int, q: int) {
    t < q && Matches(p, q) && forall x :: t < x < q ==> !Matches(p, x)
  }

  lemma PassedMeans(p: Plan, t: int)
    requires PlanOk(p)
    ensures 0 <= TimeOfDay(p) < DAY
    ensures Passed(p, t) <==> t % DAY >= TimeOfDay(p)
  {
  }

  /** No day from today on to before d matches, but for today's when its moment has passed. */
  ghost predicate NoneBefore(p: Plan, t: int, d: int) {
    forall e :: DayOf(t) <= e < d && DayMatches(p, e) ==> e == DayOf(t) && Passed(p, t)
  }

  /** From days to times: a day that matches, with none before it, unless today's moment has passed. */
  lemma NextOnDay(p: Plan, t: int, d: int, q: int)
    requires PlanOk(p) && DayMatches(p, d) && (DayOf(t) < d || (DayOf(t) == d && !Passed(p, t)))
    requires NoneBefore(p, t, d) && q == d * DAY + TimeOfDay(p)
    ensures IsNext(p, t, q)
  {
    PassedMeans(p, t);
    At(d, TimeOfDay(p));
    forall x | t < x < q ensures !Matches(p, x) {
      DaysInOrder(t, x);
      DaysInOrder(x, q);
    }
  }

  /** The moment on a day, and a day later. */
  lemma TomorrowAt(d: int, sec: int)
    requires 0 <= sec < DAY
    ensures d * DAY + sec + DAY == (d + 1) * DAY + sec && DayOf(d * DAY + sec + DAY) == d + 1
  {
    At(d + 1, sec);
  }

  lemma TimeToday(p: Plan, t: int)
    ensures MakeTime(LocalDay(t), p.hour, p.minute) == DayOf(t) * DAY + TimeOfDay(p)
  {
  }

  /** The daily reset is today's, or tomorrow's once that has passed. */
  lemma DailyDayIs(p: Plan, t: int)
    requires PlanOk(p)
    ensures DayNumber(DailyDate(p, t)) == if Passed(p, t) then DayOf(t) + 1 else DayOf(t)
  {
    PassedMeans(p, t);
    TimeToday(p, t);
    TomorrowAt(DayOf(t), TimeOfDay(p));
  }

  lemma DailyResetIs(p: Plan, t: int)
    requires p.period.Daily? && p.day >= 1
    ensures NextReset(p, t, 0) == DayNumber(DailyDate(p, t)) * DAY + TimeOfDay(p)
  {
  }

  lemma DailyIsNext(p: Plan, t: int)
    requires PlanOk(p) && p.period.Daily? && p.day >= 1
    ensures IsNext(p, t, NextReset(p, t, 0))
  {
    DailyDayIs(p, t);
    DailyResetIs(p, t);
    FromNextDay(p, t, if Passed(p, t) then DayOf(t) + 1 else DayOf(t), NextReset(p, t, 0));
  }

  lemma FromNextDay(p: Plan, t: int, d: int, q: int)
    requires PlanOk(p) && p.period.Daily?
    requires d == (if Passed(p, t) then DayOf(t) + 1 else DayOf(t)) && q == d * DAY + TimeOfDay(p)
    ensures IsNext(p, t, q)
  {
    NextOnDay(p, t, d, q);
  }

  /** The first day with this number in the week, from today or from tomorrow. */
  function NextWeekDay(d: int, number: int, skipToday: bool): int {
    var today := WeekDay(d) + 1;
    if number < today || (number == today && skipToday) then d + 7 - today + number else d + number - today
  }

  lemma NextWeekDayIsNext(d: int, number: int, skipToday: bool, e: int)
    requires 1 <= number <= 7
    ensures var n := NextWeekDay(d, number, skipToday);
      && WeekDay(n) + 1 == number && (d < n || (d == n && !skipToday))
      && (d <= e < n && WeekDay(e) + 1 == number ==> e == d && skipToday)
  {
  }

  lemma WeeklyDay(p: Plan, t: int)
    requires PlanOk(p) && p.period.Weekly?
    ensures DayNumber(WeeklyDate(p, t)) == NextWeekDay(DayOf(t), p.day, Passed(p, t))
  {
    ThisWeekIsMonday(t);
    var d := DayOf(t);
    var today := WeekDay(d) + 1;
    if p.day < today || (p.day == today && Passed(p, t)) {
      At(d - WeekDay(d) + 7, 0);
      At(d - WeekDay(d) + 7 + p.day - 1, 0);
      assert NextWeek(t) == (d - WeekDay(d) + 7) * DAY;
      NextWeekIsNext(t, t);
    } else {
      At(d + p.day - today, t % DAY);
      assert t + (p.day - today) * DAY == (d + p.day - today) * DAY + t % DAY;
    }
  }

  lemma WeeklyResetIs(p: Plan, t: int)
    requires p.period.Weekly? && p.day >= 1
    ensures NextReset(p, t, 0) == DayNumber(WeeklyDate(p, t)) * DAY + TimeOfDay(p)
  {
  }

  lemma WeeklyIsNext(p: Plan, t: int)
    requires PlanOk(p) && p.period.Weekly?
    ensures IsNext(p, t, NextReset(p, t, 0))
  {
    WeeklyDay(p, t);
    WeeklyResetIs(p, t);
    FromNextWeekDay(p, t, NextWeekDay(DayOf(t), p.day, Passed(p, t)), NextReset(p, t, 0));
  }

  lemma FromNextWeekDay(p: Plan, t: int, d: int, q: int)
    requires PlanOk(p) && p.period.Weekly? && d == NextWeekDay(DayOf(t), p.day, Passed(p, t)) && q == d * DAY + TimeOfDay(p)
    ensures IsNext(p, t, q)
  {
    forall e ensures WeekDay(d) + 1 == p.day && (DayOf(t) < d || (DayOf(t) == d && !Passed(p, t)))
                     && (DayOf(t) <= e < d && WeekDay(e) + 1 == p.day ==> e == DayOf(t) && Passed(p, t)) {
      NextWeekDayIsNext(DayOf(t), p.day, Passed(p, t), e);
    }
    NextOnDay(p, t, d, q);
  }

  /** The month is too short for the day, it is its last day, and the moment has passed. */
  predicate MissesLastDay(p: Plan, t: int) {
    var c := LocalDay(t);
    p.day > LastMonthDay(c.year, c.month) && c.day == LastMonthDay(c.year, c.month) && Passed(p, t)
  }

  /** No day matches between today and the one that was found this month, or between today and the next month. */
  lemma NoneThisMonth(p: Plan, d: int, e: int)
    requires p.period.Monthly? && p.day >= 1 && Valid(CivilOf(d)) && d <= e < DayNumber(FollowingMonth(CivilOf(d)))
    requires p.day <= CivilOf(d).day || e - d < Min(LastMonthDay(CivilOf(d).year, CivilOf(d).month), p.day) - CivilOf(d).day
    ensures DayMatches(p, e) ==> e == d && p.day == CivilOf(d).day
  {
    SameMonthDays(d, e);
  }

  lemma NoneNextMonth(p: Plan, first: Civil, e: int)
    requires p.period.Monthly? && Valid(first) && first.day == 1 && DayNumber(first) <= e
    requires e < DayNumber(first) + Min(LastMonthDay(first.year, first.month), p.day) - 1
    ensures !DayMatches(p, e)
  {
    MonthStartNext(first.year, first.month);
    MonthIsUnique(e, first);
  }

  lemma ThisMonthDay(p: Plan, t: int)
    requires PlanOk(p) && p.period.Monthly? && !Behind(p, t)
    ensures var c, d := LocalDay(t), DayNumber(MonthlyDate(p, t));
      && MonthlyDate(p, t) == Civil(c.year, c.month, Min(LastMonthDay(c.year, c.month), p.day))
      && CivilOf(d) == MonthlyDate(p, t) && d - DayOf(t) == MonthlyDate(p, t).day - c.day
      && d < DayNumber(FollowingMonth(c)) && DayMatches(p, d)
  {
    var c, target := LocalDay(t), MonthlyDate(p, t);
    assert target == Civil(c.year, c.month, Min(LastMonthDay(c.year, c.month), p.day));
    DayNumberRoundTrip(target);
    FollowingMonthStarts(c);
  }

  lemma ThisMonthNone(p: Plan, t: int, e: int)
    requires PlanOk(p) && p.period.Monthly? && !Behind(p, t) && DayOf(t) <= e < DayNumber(MonthlyDate(p, t))
    ensures !DayMatches(p, e)
  {
    ThisMonthDay(p, t);
    NoneThisMonth(p, DayOf(t), e);
  }

  lemma ThisMonthMatches(p: Plan, t: int)
    requires PlanOk(p) && p.period.Monthly? && !Behind(p, t) && !MissesLastDay(p, t)
    ensures var d := DayNumber(MonthlyDate(p, t)); DayMatches(p, d) && (DayOf(t) < d || (DayOf(t) == d && !Passed(p, t)))
  {
    ThisMonthDay(p, t);
  }

  lemma ThisMonthIsNext(p: Plan, t: int)
    requires PlanOk(p) && p.period.Monthly? && !Behind(p, t) && !MissesLastDay(p, t)
    ensures IsNext(p, t, NextReset(p, t, 0))
  {
    ThisMonthMatches(p, t);
    MonthlyResetIs(p, t);
    ThisMonthNoneBefore(p, t);
    NextOnDay(p, t, DayNumber(MonthlyDate(p, t)), NextReset(p, t, 0));
  }

  lemma ThisMonthNoneBefore(p: Plan, t: int)
    requires PlanOk(p) && p.period.Monthly? && !Behind(p, t)
    ensures NoneBefore(p, t, DayNumber(MonthlyDate(p, t)))
  {
    forall e | DayOf(t) <= e < DayNumber(MonthlyDate(p, t)) ensures !DayMatches(p, e) {
      ThisMonthNone(p, t, e);
    }
  }

  lemma FollowingMonthDay(p: Plan, t: int)
    requires PlanOk(p) && p.period.Monthly? && Behind(p, t)
    ensures var first, d := FollowingMonth(LocalDay(t)), DayNumber(MonthlyDate(p, t));
      && MonthlyDate(p, t) == Civil(first.year, first.month, Min(LastMonthDay(first.year, first.month), p.day))
      && CivilOf(d) == MonthlyDate(p, t) && d == DayNumber(first) + MonthlyDate(p, t).day - 1
      && DayOf(t) < DayNumber(first) && DayMatches(p, d)
  {
    var first, target := FollowingMonth(LocalDay(t)), MonthlyDate(p, t);
    NextMonthDay(t);
    assert target == Civil(first.year, first.month, Min(LastMonthDay(first.year, first.month), p.day));
    DayNumberRoundTrip(target);
    FollowingMonthStarts(LocalDay(t));
  }

  lemma FollowingMonthNone(p: Plan, t: int, e: int)
    requires PlanOk(p) && p.period.Monthly? && Behind(p, t) && DayOf(t) <= e < DayNumber(MonthlyDate(p, t))
    ensures DayMatches(p, e) ==> e == DayOf(t) && Passed(p, t)
  {
    FollowingMonthDay(p, t);
    var first := FollowingMonth(LocalDay(t));
    if e < DayNumber(first) {
      NoneThisMonth(p, DayOf(t), e);
    } else {
      NoneNextMonth(p, first, e);
    }
  }

  lemma FollowingMonthIsNext(p: Plan, t: int)
    requires PlanOk(p) && p.period.Monthly? && Behind(p, t)
    ensures IsNext(p, t, NextReset(p, t, 0))
  {
    FollowingMonthMatches(p, t);
    MonthlyResetIs(p, t);
    FollowingMonthNoneBefore(p, t);
    NextOnDay(p, t, DayNumber(MonthlyDate(p, t)), NextReset(p, t, 0));
  }

  lemma FollowingMonthMatches(p: Plan, t: int)
    requires PlanOk(p) && p.period.Monthly? && Behind(p, t)
    ensures DayOf(t) < DayNumber(MonthlyDate(p, t)) && DayMatches(p, DayNumber(MonthlyDate(p, t)))
  {
    FollowingMonthDay(p, t);
  }

  lemma MonthlyResetIs(p: Plan, t: int)
    requires p.day >= 1 && p.period.Monthly?
    ensures NextReset(p, t, 0) == DayNumber(MonthlyDate(p, t)) * DAY + TimeOfDay(p)
  {
  }

  lemma FollowingMonthNoneBefore(p: Plan, t: int)
    requires PlanOk(p) && p.period.Monthly? && Behind(p, t)
    ensures NoneBefore(p, t, DayNumber(MonthlyDate(p, t)))
  {
    forall e | DayOf(t) <= e < DayNumber(MonthlyDate(p, t)) && DayMatches(p, e) ensures e == DayOf(t) && Passed(p, t) {
      FollowingMonthNone(p, t, e);
    }
  }

  /** When the last day is missed, the moment found is today's, which has passed. */
  lemma MissedIsPast(p: Plan, t: int)
    requires PlanOk(p) && p.period.Monthly? && MissesLastDay(p, t)
    ensures NextReset(p, t, 0) == DayOf(t) * DAY + TimeOfDay(p) <= t
  {
    PassedMeans(p, t);
    ThisMonthDay(p, t);
  }

  /** The monthly rule gives the earliest match after t exactly when the month is not missed on its last day. */
  lemma MonthlyIsNextExactly(p: Plan, t: int)
    requires PlanOk(p) && p.period.Monthly?
    ensures IsNext(p, t, NextReset(p, t, 0)) <==> !MissesLastDay(p, t)
  {
    if MissesLastDay(p, t) {
      MissedIsPast(p, t);
    } else if Behind(p, t) {
      FollowingMonthIsNext(p, t);
    } else {
      ThisMonthIsNext(p, t);
    }
  }

  /** The next reset is at the earliest moment strictly after now that matches the rule, whatever the period, unless
      the monthly rule is asked on the last day of a month too short for it, after the moment. */
  lemma NextResetIsNext(p: Plan, t: int, qTime: int)
    requires PlanOk(p) && p.day >= 1 && !p.period.Other?
    ensures IsNext(p, t, NextReset(p, t, qTime)) <==> !(p.period.Monthly? && MissesLastDay(p, t))
  {
    match p.period
    case Daily => DailyIsNext(p, t);
    case Weekly => WeeklyIsNext(p, t);
    case Monthly => MonthlyIsNextExactly(p, t);
  }

  /** It happens on the last day of every month that is too short, once the moment has passed. */
  lemma EveryShortMonthIsMissed(p: Plan, c: Civil, sec: int, t: int)
    requires PlanOk(p) && p.period.Monthly? && Valid(c) && c.day == LastMonthDay(c.year, c.month) < p.day
    requires TimeOfDay(p) <= sec < DAY && t == DayNumber(c) * DAY + sec
    ensures LocalDate(t) == c && MissesLastDay(p, t) && NextReset(p, t, 0) <= t
  {
    DayNumberRoundTrip(c);
    OnDay(c, DayNumber(c), sec, t);
    MissedAt(p, c, t);
  }

  lemma OnDay(c: Civil, d: int, sec: int, t: int)
    requires CivilOf(d) == c && 0 <= sec < DAY && t == d * DAY + sec
    ensures DayOf(t) == d && LocalDate(t) == c && t % DAY == sec
  {
    At(d, sec);
  }

  lemma MissedAt(p: Plan, c: Civil, t: int)
    requires PlanOk(p) && p.period.Monthly? && Valid(c) && c.day == LastMonthDay(c.year, c.month) < p.day
    requires DayOf(t) == DayNumber(c) && LocalDate(t) == c && t % DAY >= TimeOfDay(p)
    ensures MissesLastDay(p, t) && NextReset(p, t, 0) <= t
  {
    PassedMeans(p, t);
    MissedIsPast(p, t);
  }

  /** For example on 30 April 2023 at noon, for a quota that resets on the 31st at midnight. */
  lemma PlannedInThePast(p: Plan, c: Civil)
    requires p == Plan(Monthly, 31, 0, 0) && c == Civil(122, 4, 30)
    ensures Valid(c) && var t := DayNumber(c) * DAY + 12 * 3600; LocalDate(t) == c && NextReset(p, t, 0) <= t
  {
    EveryShortMonthIsMissed(p, c, 12 * 3600, DayNumber(c) * DAY + 12 * 3600);
  }
}
