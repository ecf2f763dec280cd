/**
 What the day, week, month and timeline counters of the byte meter count: a tally is kept beside every run, of the bytes
 flushed for each server since the last flush past the end of the day, of the week and of the month, and under each
 label; and the speeds of the meter are bytes over time.
 */
module Periods {
  import opened Meters
  import opened Metering

  /** Bytes flushed in the running periods, the ends of these as they were last set, and the label of the running day. */
  datatype Tally = Tally(
    day: Id -> int, week: Id -> int, month: Id -> int, grand: Id -> int, dated: (Id, Date) -> int,
    endOfDay: real, endOfWeek: real, endOfMonth: real, dayLabel: Date)

  function Nothing(): Id -> int {
    (s: Id) => 0
  }

  /** Bytes flushed when the clock says so; a period that is past by then starts with them. */
  function Counted(t: Tally, amount: map<Id, int>, clock: Clock): Tally {
    var dayPast := clock.now > t.endOfDay;
    var weekPast, monthPast := dayPast && clock.now > t.endOfWeek, dayPast && clock.now > t.endOfMonth;
    var date := if dayPast then clock.date else t.dayLabel;
    Tally(
      (s: Id) => (if dayPast then 0 else t.day(s)) + Get(amount, s, 0),
      (s: Id) => (if weekPast then 0 else t.week(s)) + Get(amount, s, 0),
      (s: Id) => (if monthPast then 0 else t.month(s)) + Get(amount, s, 0),
      (s: Id) => t.grand(s) + Get(amount, s, 0),
      (s: Id, d: Date) => t.dated(s, d) + if d == date then Get(amount, s, 0) else 0,
      if dayPast then clock.endOfDay else t.endOfDay, if weekPast then clock.endOfWeek else t.endOfWeek,
      if monthPast then clock.endOfMonth else t.endOfMonth, date)
  }

  function Forgotten(t: Tally, server: Id): Tally {
    t.(day := (s: Id) => if s == server then 0 else t.day(s),
       week := (s: Id) => if s == server then 0 else t.week(s),
       month := (s: Id) => if s == server then 0 else t.month(s),
       grand := (s: Id) => if s == server then 0 else t.grand(s),
       dated := (s: Id, d: Date) => if s == server then 0 else t.dated(s, d))
  }

  /** Only a flush adds to the tally, and only clearing a server takes from it. */
  function Tallied(st: State, t: Tally, step: Step): Tally {
    match step
    case Tick(clock, _) => Counted(t, st.m.cache.amount, clock)
    case QuotaChange(_, _, _, _, clock, _) => Counted(t, st.m.cache.amount, clock)
    case Clear(s) => Forgotten(t, s)
    case _ => t
  }

  /** The counters are the tally. */
  ghost predicate Agrees(t: Totals, tally: Tally) {
    forall s :: AgreesAt(t, tally, s)
  }

  ghost predicate AgreesAt(t: Totals, tally: Tally, s: Id) {
    && Get(t.day, s, 0) == tally.day(s) && Get(t.week, s, 0) == tally.week(s) && Get(t.month, s, 0) == tally.month(s)
    && Get(t.grand, s, 0) == tally.grand(s)
    && forall d :: Get(Get(t.timeline, s, map[]), d, 0) == tally.dated(s, d)
  }

  predicate EndsAgree(e: Ends, tally: Tally) {
    e == Ends(tally.dayLabel, tally.endOfDay, tally.endOfWeek, tally.endOfMonth)
  }

  ghost predicate MeterAgrees(m: Meter, tally: Tally) {
    Agrees(m.totals, tally) && EndsAgree(m.ends, tally)
  }

  // ------------------------------------------------------------------------------------------------- every step

  /** Making missing counters changes none. */
  ghost predicate SameCounts(t: Totals, t1: Totals, s: Id) {
    && Get(t1.day, s, 0) == Get(t.day, s, 0) && Get(t1.week, s, 0) == Get(t.week, s, 0)
    && Get(t1.month, s, 0) == Get(t.month, s, 0) && Get(t1.grand, s, 0) == Get(t.grand, s, 0)
    && forall d :: Get(Get(t1.timeline, s, map[]), d, 0) == Get(Get(t.timeline, s, map[]), d, 0)
  }

  lemma InitSame(m: Meter, server: Id, s: Id)
    ensures SameCounts(m.totals, InitServer(m, server).totals, s) && InitServer(m, server).ends == m.ends
  {
  }

  lemma {:induction false} InitAllSame(m: Meter, servers: seq<Id>, s: Id)
    ensures SameCounts(m.totals, InitServers(m, servers).totals, s) && InitServers(m, servers).ends == m.ends
    decreases |servers|
  {
    if servers != [] {
      InitSame(m, servers[0], s);
      InitAllSame(InitServer(m, servers[0]), servers[1..], s);
    }
  }

  /** The tally once its periods are past, before anything is counted. */
  function Past(t: Tally, clock: Clock): Tally {
    Counted(t, map[], clock)
  }

  lemma RolloverAgrees(m: Meter, tally: Tally, clock: Clock, servers: seq<Id>)
    requires MeterAgrees(m, tally)
    ensures MeterAgrees(Rollover(m, clock, servers), Past(tally, clock))
  {
    if clock.now > m.ends.day {
      var over := DayOver(m, clock);
      forall s ensures AgreesAt(over.totals, Past(tally, clock), s) {
        assert AgreesAt(m.totals, tally, s);
      }
      forall s ensures AgreesAt(InitServers(over, servers).totals, Past(tally, clock), s) {
        assert AgreesAt(over.totals, Past(tally, clock), s);
        InitAllSame(over, servers, s);
      }
      InitAllSame(over, servers, Id(0));
    } else {
      forall s ensures AgreesAt(m.totals, Past(tally, clock), s) {
        assert AgreesAt(m.totals, tally, s);
      }
    }
  }

  lemma ChargedAgrees(t: Totals, tally: Tally, amount: map<Id, int>, clock: Clock, s: Id)
    requires AgreesAt(t, Past(tally, clock), s)
    requires s in amount && amount[s] != 0 ==> Initialised(t, s, Past(tally, clock).dayLabel)
    ensures AgreesAt(ChargedTotals(t, amount, Past(tally, clock).dayLabel), Counted(tally, amount, clock), s)
  {
    var date, t1 := Past(tally, clock).dayLabel, ChargedTotals(t, amount, Past(tally, clock).dayLabel);
    forall d ensures Get(Get(t1.timeline, s, map[]), d, 0) == Counted(tally, amount, clock).dated(s, d) {
      assert Get(Get(t.timeline, s, map[]), d, 0) == Past(tally, clock).dated(s, d);
    }
  }

  lemma FlushTotals(m: Meter, clock: Clock, servers: seq<Id>, later: real)
    ensures var m1, m2 := Rollover(m, clock, servers), Flush(m, clock, servers, later);
      m2.totals == ChargedTotals(m1.totals, m1.cache.amount, m1.ends.date) && m2.ends == m1.ends
  {
  }

  lemma CountedSame(t: Totals, tally: Tally, a: map<Id, int>, b: map<Id, int>, clock: Clock, s: Id)
    requires AgreesAt(t, Counted(tally, a, clock), s) && Get(a, s, 0) == Get(b, s, 0)
    ensures AgreesAt(t, Counted(tally, b, clock), s)
  {
    forall d ensures Get(Get(t.timeline, s, map[]), d, 0) == Counted(tally, b, clock).dated(s, d) {
      assert Get(Get(t.timeline, s, map[]), d, 0) == Counted(tally, a, clock).dated(s, d);
    }
  }

  lemma FlushAgreesAt(m: Meter, m1: Meter, tally: Tally, clock: Clock, s: Id)
    requires MeterAgrees(m1, Past(tally, clock)) && !Raises(m1) && SameCache(m.cache, m1.cache)
    ensures AgreesAt(ChargedTotals(m1.totals, m1.cache.amount, m1.ends.date), Counted(tally, m.cache.amount, clock), s)
  {
    assert AgreesAt(m1.totals, Past(tally, clock), s) && m1.ends.date == Past(tally, clock).dayLabel;
    ChargedAgrees(m1.totals, tally, m1.cache.amount, clock, s);
    CountedSame(ChargedTotals(m1.totals, m1.cache.amount, m1.ends.date), tally, m1.cache.amount, m.cache.amount, clock, s);
  }

  lemma FlushAgrees(m: Meter, tally: Tally, clock: Clock, servers: seq<Id>, later: real)
    requires MeterOk(m) && MeterAgrees(m, tally) && !Raises(Rollover(m, clock, servers))
    ensures MeterAgrees(Flush(m, clock, servers, later), Counted(tally, m.cache.amount, clock))
  {
    RolloverAgrees(m, tally, clock, servers);
    RolloverKeeps(m, clock, servers);
    FlushTotals(m, clock, servers, later);
    var m1 := Rollover(m, clock, servers);
    forall s ensures AgreesAt(ChargedTotals(m1.totals, m1.cache.amount, m1.ends.date), Counted(tally, m.cache.amount, clock), s) {
      FlushAgreesAt(m, m1, tally, clock, s);
    }
  }

  lemma WithoutAgreesAt(t: Totals, tally: Tally, server: Id, s: Id)
    requires AgreesAt(t, tally, s)
    ensures AgreesAt(Without(t, server), Forgotten(tally, server), s)
  {
    forall d ensures Get(Get(Without(t, server).timeline, s, map[]), d, 0) == Forgotten(tally, server).dated(s, d) {
      assert Get(Get(t.timeline, s, map[]), d, 0) == tally.dated(s, d);
    }
  }

  lemma SameAgreesAt(t: Totals, t1: Totals, tally: Tally, s: Id)
    requires AgreesAt(t, tally, s) && SameCounts(t, t1, s)
    ensures AgreesAt(t1, tally, s)
  {
  }

  lemma ClearAgrees(m: Meter, tally: Tally, server: Id)
    requires MeterAgrees(m, tally)
    ensures MeterAgrees(ClearServer(m, server), Forgotten(tally, server))
  {
    var m1 := m.(totals := Without(m.totals, server));
    InitSame(m1, server, server);
    forall s ensures AgreesAt(InitServer(m1, server).totals, Forgotten(tally, server), s) {
      assert AgreesAt(m.totals, tally, s);
      WithoutAgreesAt(m.totals, tally, server, s);
      InitSame(m1, server, s);
      SameAgreesAt(m1.totals, InitServer(m1, server).totals, Forgotten(tally, server), s);
    }
  }

  lemma NewServerAgrees(m: Meter, tally: Tally, server: Id)
    requires MeterAgrees(m, tally)
    ensures MeterAgrees(InitServer(m, server), tally)
  {
    forall s ensures AgreesAt(InitServer(m, server).totals, tally, s) {
      assert AgreesAt(m.totals, tally, s);
      InitSame(m, server, s);
    }
  }

  lemma StepAgrees(st: State, tally: Tally, step: Step)
    requires StateOk(st) && Enabled(st, step) && MeterAgrees(st.m, tally)
    ensures MeterAgrees(Next(st, step).m, Tallied(st, tally, step))
  {
    match step
    case NewServer(s) => NewServerAgrees(st.m, tally, s);
    case Tick(clock, later) => FlushAgrees(st.m, tally, clock, st.servers, later);
    case Clear(s) => ClearAgrees(st.m, tally, s);
    case QuotaChange(have, size, usage, hasPeriod, clock, later) =>
      var st1 := QuotaChanged(st, have, size, usage, hasPeriod);
      SameRollover(st.m, st1.m, clock, st.servers);
      FlushAgrees(st1.m, tally, clock, st.servers, later);
    case _ =>
  }

  ghost function TalliedRun(first: State, tally: Tally, steps: seq<Step>, last: State): Tally
    requires Run(first, steps, last)
    decreases |steps|
  {
    if steps == [] then tally
    else TalliedRun(Next(first, steps[0]), Tallied(first, tally, steps[0]), steps[1..], last)
  }

  lemma {:induction false} RunAgrees(first: State, tally: Tally, steps: seq<Step>, last: State)
    requires StateOk(first) && MeterAgrees(first.m, tally) && Run(first, steps, last)
    ensures MeterAgrees(last.m, TalliedRun(first, tally, steps, last))
    decreases |steps|
  {
    if steps != [] {
      NextKeeps(first, steps[0]);
      StepAgrees(first, tally, steps[0]);
      RunAgrees(Next(first, steps[0]), Tallied(first, tally, steps[0]), steps[1..], last);
    }
  }

  /** The tally of a meter that has counted nothing yet. */
  function NewTally(e: Ends): Tally {
    Tally(Nothing(), Nothing(), Nothing(), Nothing(), (s: Id, d: Date) => 0, e.day, e.week, e.month, e.date)
  }

  /** On every run, for every server: the total of the day is exactly what was flushed since the last flush past the end
      of a day, that of the week and of the month what was flushed since the last one past the end of theirs, the grand
      total all that was flushed, and the timeline what was flushed under each label; each end is the one that was
      current at the last flush past it. */
  lemma EveryTotalIsItsPeriod(first: State, steps: seq<Step>, last: State, s: Id, d: Date)
    requires Zero(first) && Run(first, steps, last)
    ensures var t := TalliedRun(first, NewTally(first.m.ends), steps, last);
      && Get(last.m.totals.day, s, 0) == t.day(s) && Get(last.m.totals.week, s, 0) == t.week(s)
      && Get(last.m.totals.month, s, 0) == t.month(s) && Get(last.m.totals.grand, s, 0) == t.grand(s)
      && Get(Get(last.m.totals.timeline, s, map[]), d, 0) == t.dated(s, d)
      && last.m.ends == Ends(t.dayLabel, t.endOfDay, t.endOfWeek, t.endOfMonth)
  {
    ZeroIsOk(first);
    RunAgrees(first, NewTally(first.m.ends), steps, last);
    assert AgreesAt(last.m.totals, TalliedRun(first, NewTally(first.m.ends), steps, last), s);
  }

  // ------------------------------------------------------------------------------------------------------- speeds

  lemma Quotient(p: real, total: real)
    requires total > 0.0
    ensures p / total * total == p
  {
  }

  lemma TimesOver(r: real, t: real)
    requires t > 0.0
    ensures r * t / t == r
  {
  }

  lemma SteadyNew(r: real, last: real, bytes: int, total: real, dt: real)
    requires total > 0.0 && total == last + dt && bytes as real == r * dt
    ensures NewBps(r, last, bytes, total) == r
  {
    assert r * last + r * dt == r * total;
    TimesOver(r, total);
  }

  /** A window is taken as it is, but as no shorter than a millionth of a second. */
  lemma WindowIsNotEmpty(x: real)
    ensures x <= AtLeastEpsilon(x) && 0.000001 <= AtLeastEpsilon(x) && (AtLeastEpsilon(x) == x || AtLeastEpsilon(x) == 0.000001)
  {
  }

  /** A steady speed is shown as it is, for all servers together and for each, however long the window is. */
  lemma SteadySpeedStays(speed: Speed, cache: Cache, now: real, r: real, s: Id, q: real)
    requires speed.start + 0.000001 < speed.last < now
    requires speed.bps == r && cache.sum as real == r * (now - speed.last)
    requires s in speed.serverBps && s in cache.amount
    requires speed.serverBps[s] == q && cache.amount[s] as real == q * (now - speed.last)
    ensures NewSpeed(speed, cache, now).bps == r && s in NewSpeed(speed, cache, now).serverBps
    ensures NewSpeed(speed, cache, now).serverBps[s] == q
  {
    var total, last := now - speed.start, speed.last - speed.start;
    SteadyNew(r, last, cache.sum, total, now - speed.last);
    SteadyNew(q, last, cache.amount[s], total, now - speed.last);
  }

  /** The window ends now and reaches back five seconds, or to where it began if that is later. */
  lemma WindowIsFiveSeconds(speed: Speed, cache: Cache, now: real)
    ensures var new1 := NewSpeed(speed, cache, now);
      && new1.last == now && now - 5.0 <= new1.start && speed.start <= new1.start
      && (new1.start == speed.start || new1.start == now - 5.0)
  {
  }

  /** Updates: the bytes since the last one, and its time. */
  ghost function Updated(speed: Speed, updates: seq<(int, real)>): Speed
    decreases |updates|
  {
    if updates == [] then speed else Updated(NewSpeed(speed, Cache(map[], updates[0].0), updates[0].1), updates[1..])
  }

  ghost function BytesOf(updates: seq<(int, real)>): int {
    if updates == [] then 0 else updates[0].0 + BytesOf(updates[1..])
  }

  /** The times rise, and stay within the window. */
  ghost predicate Within(last: real, start: real, updates: seq<(int, real)>)
    decreases |updates|
  {
    updates == [] || (last <= updates[0].1 <= start + 5.0 && start + 0.000001 < updates[0].1
                      && Within(updates[0].1, start, updates[1..]))
  }

  /** Until the window is five seconds long the speed is the bytes since it began over the time since it began. */
  lemma {:induction false} SpeedIsBytesOverTime(speed: Speed, updates: seq<(int, real)>, bytes: int)
    requires Within(speed.last, speed.start, updates)
    requires speed.bps * AtLeastEpsilon(speed.last - speed.start) == bytes as real
    ensures var end := Updated(speed, updates);
      && end.start == speed.start
      && end.bps * AtLeastEpsilon(end.last - end.start) == (bytes + BytesOf(updates)) as real
      && (updates != [] ==> end.last == updates[|updates| - 1].1)
    decreases |updates|
  {
    if updates != [] {
      var (n, now) := updates[0];
      var total, last := AtLeastEpsilon(now - speed.start), AtLeastEpsilon(speed.last - speed.start);
      var new1 := NewSpeed(speed, Cache(map[], n), now);
      Quotient(speed.bps * last + n as real, total);
      assert new1.bps * total == (bytes + n) as real;
      SpeedIsBytesOverTime(new1, updates[1..], bytes + n);
      if |updates| > 1 {
        assert updates[1..][|updates| - 2] == updates[|updates| - 1];
      }
    }
  }

  /** After an update the speed is nothing, in a window that begins anew, or at least a hundredth of a byte a second. */
  lemma NoTrickle(speed: Speed, cache: Cache, now: real, later: real)
    ensures var end, new1 := EndSpeed(speed, cache, now, later), NewSpeed(speed, cache, now);
      if new1.bps >= 0.01 then end == new1
      else end.bps == 0.0 && end.start == later && end.last == later && forall s :: s in end.serverBps ==> end.serverBps[s] == 0.0
  {
  }

  // -------------------------------------------------------------------------------------------------------- quota

  /** What was used of a quota. */
  function Used(quota: Quota): real {
    quota.size - quota.left
  }

  /** Setting a quota: it is as large as configured; a quota before it leaves its usage; where there was none, what `left`
      holds counts as used, and that is the usage of the period if a quota was never set. Taking the quota away leaves
      neither size nor rest. */
  lemma QuotaIsSet(quota: Quota, have: bool, size: real, usage: int, hasPeriod: bool)
    ensures var q := ChangeQuota(quota, have, size, usage, hasPeriod);
      && q.have == have && q.enabled == quota.enabled
      && (!have ==> q.size == 0.0 && q.left == 0.0)
      && (have ==> q.size == size)
      && (have && quota.have && quota.size != 0.0 ==> Used(q) == Used(quota))
      && (have && quota.size == 0.0 && (quota.have || !hasPeriod) ==> Used(q) == quota.left)
      && (have && quota.size == 0.0 && !quota.have && hasPeriod ==> Used(q) == usage as real)
  {
  }

  /** A quota that is reset is unused. */
  lemma ResetIsUnused(quota: Quota, size: real)
    ensures var q := ResetQuota(quota, size); Used(q) == 0.0 && q.size == size && q.have == quota.have && q.enabled == quota.enabled
  {
  }

  /** Whether the quota is switched on after these steps, and whether there is one. */
  function SwitchedOn(steps: seq<Step>, enabled: bool): bool {
    if steps == [] then enabled
    else SwitchedOn(steps[1..], if steps[0].EnableQuota? then steps[0].enabled else enabled)
  }

  function HasQuota(steps: seq<Step>, have: bool): bool {
    if steps == [] then have
    else HasQuota(steps[1..], if steps[0].QuotaChange? then steps[0].have else have)
  }

  /** On every run the quota is on or off as it was switched last, and there is one if the last change says so. */
  lemma {:induction false} QuotaAsLastSet(first: State, steps: seq<Step>, last: State)
    requires Run(first, steps, last)
    ensures last.m.quota.enabled == SwitchedOn(steps, first.m.quota.enabled)
    ensures last.m.quota.have == HasQuota(steps, first.m.quota.have)
    decreases |steps|
  {
    if steps != [] {
      StepSetsQuota(first, steps[0]);
      QuotaAsLastSet(Next(first, steps[0]), steps[1..], last);
    }
  }

  lemma StepSetsQuota(st: State, step: Step)
    requires Enabled(st, step)
    ensures var q := Next(st, step).m.quota;
      && q.enabled == (if step.EnableQuota? then step.enabled else st.m.quota.enabled)
      && q.have == (if step.QuotaChange? then step.have else st.m.quota.have)
  {
    match step
    case Tick(clock, later) => TickKeepsFlags(st, clock, later);
    case QuotaChange(have, size, usage, hasPeriod, clock, later) =>
      QuotaIsSet(st.m.quota, have, size, usage, hasPeriod);
      TickKeepsFlags(QuotaChanged(st, have, size, usage, hasPeriod), clock, later);
    case _ =>
  }

  lemma TickKeepsFlags(st: State, clock: Clock, later: real)
    ensures var q := Ticked(st, clock, later).m.quota; q.enabled == st.m.quota.enabled && q.have == st.m.quota.have
  {
    StatsKeepQuota(DayOver(st.m, clock), st.servers);
  }

  lemma {:induction false} StatsKeepQuota(m: Meter, servers: seq<Id>)
    ensures InitServers(m, servers).quota == m.quota
    decreases |servers|
  {
    if servers != [] {
      StatsKeepQuota(InitServer(m, servers[0]), servers[1..]);
    }
  }

  /** A reset of the rates clears every speed and begins a window, and loses no byte. */
  lemma RatesAreReset(st: State, now: real)
    ensures var st1 := Next(st, ResetRate(now));
      && st1.m.speed.bps == 0.0 && st1.m.speed.start == st1.m.speed.last == now
      && (forall s :: s in st1.m.speed.serverBps <==> s in st.m.speed.serverBps)
      && (forall s :: s in st1.m.speed.serverBps ==> st1.m.speed.serverBps[s] == 0.0)
      && st1.m.totals == st.m.totals && st1.m.cache == st.m.cache && st1.m.ends == st.m.ends && st1.m.quota == st.m.quota
  {
  }
}
