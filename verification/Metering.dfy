/** What every run of the byte meter keeps: bytes are conserved, totals nest, speeds add up, and quota is charged. */
module Metering {
  import opened Meters

  /** The meter, the servers in the downloader's list, and for each server the bytes received since it was last cleared
      and those that were cached at that moment; `used` is the quota charged since it was set or reset, on top of what
      `left` held when a quota of size zero was replaced. */
  datatype State = State(m: Meter, servers: seq<Id>, since: map<Id, int>, held: map<Id, int>, used: real)

  datatype Step =
    | NewServer(s: Id)
    | DropServer(i: nat)
    | GotBytes(s: Id, n: nat)
    | Tick(clock: Clock, later: real)
    | ResetRate(now: real)
    | Clear(s: Id)
    | EnableQuota(enabled: bool)
    | QuotaReset(size: real)
    | QuotaChange(have: bool, size: real, usage: int, hasPeriod: bool, clock: Clock, later: real)

  /** Bytes are received for servers in the list only, and no flush raises; `FlushRaisesExactly` says when one does. */
  predicate Enabled(st: State, step: Step) {
    match step
    case GotBytes(s, _) => s in st.servers && s in st.m.cache.amount
    case DropServer(i) => i < |st.servers|
    case Tick(clock, _) => !Raises(Rollover(st.m, clock, st.servers))
    case QuotaChange(_, _, _, _, clock, _) => !Raises(Rollover(st.m, clock, st.servers))
    case _ => true
  }

  function Charge(quota: Quota, bytes: int): real {
    if quota.have && quota.enabled then bytes as real else 0.0
  }

  function Ticked(st: State, clock: Clock, later: real): State {
    st.(m := Flush(st.m, clock, st.servers, later), used := st.used + Charge(st.m.quota, st.m.cache.sum))
  }

  /** The total of the period stands in for `left` while no quota was ever set. */
  predicate TakesPeriod(quota: Quota, hasPeriod: bool) {
    !quota.have && quota.size < 0.5 && hasPeriod
  }

  /** A change from one quota to another keeps what was used of it; a first quota starts with what `left` holds. */
  function QuotaChanged(st: State, have: bool, size: real, usage: int, hasPeriod: bool): State {
    var q := st.m.quota;
    var left := if TakesPeriod(q, hasPeriod) then usage as real else q.left;
    st.(m := st.m.(quota := ChangeQuota(q, have, size, usage, hasPeriod)),
        used := if q.size == 0.0 then left else if TakesPeriod(q, hasPeriod) then q.size - left else st.used)
  }

  function Cleared(st: State, s: Id): State {
    st.(m := ClearServer(st.m, s), since := st.since[s := 0], held := st.held[s := Get(st.m.cache.amount, s, 0)])
  }

  function Next(st: State, step: Step): State
    requires Enabled(st, step)
  {
    match step
    case NewServer(s) => st.(m := InitServer(st.m, s), servers := st.servers + [s])
    case DropServer(i) => st.(servers := st.servers[..i] + st.servers[i + 1..])
    case GotBytes(s, n) => st.(m := Receive(st.m, s, n), since := st.since[s := Get(st.since, s, 0) + n])
    case Tick(clock, later) => Ticked(st, clock, later)
    case ResetRate(now) => st.(m := st.m.(speed := ResetSpeed(st.m.speed, now)))
    case Clear(s) => Cleared(st, s)
    case EnableQuota(enabled) => st.(m := st.m.(quota := st.m.quota.(enabled := enabled)))
    case QuotaReset(size) => st.(m := st.m.(quota := ResetQuota(st.m.quota, size)), used := 0.0)
    case QuotaChange(have, size, usage, hasPeriod, clock, later) => Ticked(QuotaChanged(st, have, size, usage, hasPeriod), clock, later)
  }

  // ------------------------------------------------------------------------------------------------ the invariant

  predicate Nested(t: Totals, s: Id) {
    && 0 <= Get(t.day, s, 0) <= Get(t.week, s, 0) <= Get(t.grand, s, 0)
    && Get(t.day, s, 0) <= Get(t.month, s, 0) <= Get(t.grand, s, 0)
  }

  ghost predicate Dated(t: Totals, s: Id) {
    Get(t.grand, s, 0) == Sum(Get(t.timeline, s, map[]))
  }

  ghost predicate TotalsOk(t: Totals) {
    forall s :: Nested(t, s) && Dated(t, s)
  }

  ghost predicate CacheOk(c: Cache) {
    c.sum == Sum(c.amount) && forall s :: s in c.amount ==> c.amount[s] >= 0
  }

  ghost predicate SpeedOk(speed: Speed, cache: Cache) {
    speed.serverBps.Keys == cache.amount.Keys && speed.bps == SumReal(speed.serverBps)
  }

  /** What was received since the last clear, and cached at it, is counted or still cached. */
  predicate Conserved(st: State, s: Id) {
    Get(st.since, s, 0) + Get(st.held, s, 0) == Get(st.m.totals.grand, s, 0) + Get(st.m.cache.amount, s, 0)
  }

  /** Every server in the list, and every server with cached bytes, has all its counters. */
  predicate Ready(st: State) {
    && (forall s :: s in st.servers ==> s in st.m.cache.amount && Initialised(st.m.totals, s, st.m.ends.date))
    && (forall s :: s in st.m.cache.amount && st.m.cache.amount[s] != 0 ==> Initialised(st.m.totals, s, st.m.ends.date))
  }

  predicate QuotaOk(st: State) {
    st.m.quota.size != 0.0 ==> st.m.quota.size - st.m.quota.left == st.used
  }

  ghost predicate MeterOk(m: Meter) {
    TotalsOk(m.totals) && CacheOk(m.cache) && SpeedOk(m.speed, m.cache)
  }

  ghost predicate StateOk(st: State) {
    MeterOk(st.m) && Ready(st) && QuotaOk(st) && forall s :: Conserved(st, s)
  }

  // ------------------------------------------------------------------------------------------- every step keeps it

  lemma InitTotalsKeeps(t: Totals, s: Id, date: Date)
    requires TotalsOk(t)
    ensures var t1 := InitTotals(t, s, date);
      && TotalsOk(t1) && Initialised(t1, s, date)
      && (forall o :: Get(t1.grand, o, 0) == Get(t.grand, o, 0))
      && (forall o, d :: Initialised(t, o, d) ==> Initialised(t1, o, d))
  {
    forall o ensures Nested(InitTotals(t, s, date), o) && Dated(InitTotals(t, s, date), o) {
      InitOneKeeps(t, s, date, o);
    }
  }

  lemma InitOneKeeps(t: Totals, s: Id, date: Date, o: Id)
    requires Nested(t, o) && Dated(t, o)
    ensures Nested(InitTotals(t, s, date), o) && Dated(InitTotals(t, s, date), o)
  {
    var timeline := Get(t.timeline, s, map[]);
    if date !in timeline {
      SumPut(timeline, date, 0);
    }
  }

  /** `init_server_stats` changes no sum. */
  lemma InitServerKeeps(m: Meter, s: Id)
    requires MeterOk(m)
    ensures var m1 := InitServer(m, s);
      && MeterOk(m1) && m1.ends == m.ends && m1.quota == m.quota
      && s in m1.cache.amount && Initialised(m1.totals, s, m.ends.date)
      && (forall o :: Get(m1.totals.grand, o, 0) == Get(m.totals.grand, o, 0))
      && (forall o, d :: Initialised(m.totals, o, d) ==> Initialised(m1.totals, o, d))
      && SameCache(m.cache, m1.cache)
  {
    InitTotalsKeeps(m.totals, s, m.ends.date);
    if s !in m.cache.amount {
      SumPut(m.cache.amount, s, 0);
      SumRealPut(m.speed.serverBps, s, 0.0);
    }
  }

  /** The same bytes are cached; more servers may be known. */
  ghost predicate SameCache(c: Cache, c1: Cache) {
    && c.sum == c1.sum && c.amount.Keys <= c1.amount.Keys
    && forall s :: Get(c1.amount, s, 0) == Get(c.amount, s, 0)
  }

  lemma {:induction false} InitServersKeeps(m: Meter, servers: seq<Id>)
    requires MeterOk(m)
    ensures var m1 := InitServers(m, servers);
      && MeterOk(m1) && m1.ends == m.ends && m1.quota == m.quota
      && (forall s :: s in servers ==> s in m1.cache.amount && Initialised(m1.totals, s, m.ends.date))
      && (forall o :: Get(m1.totals.grand, o, 0) == Get(m.totals.grand, o, 0))
      && (forall o, d :: Initialised(m.totals, o, d) ==> Initialised(m1.totals, o, d))
      && SameCache(m.cache, m1.cache)
    decreases |servers|
  {
    if servers != [] {
      InitServerKeeps(m, servers[0]);
      InitServersKeeps(InitServer(m, servers[0]), servers[1..]);
      assert forall s :: s in servers ==> s == servers[0] || s in servers[1..];
    }
  }

  lemma RolloverKeeps(m: Meter, clock: Clock, servers: seq<Id>)
    requires MeterOk(m)
    ensures var m1 := Rollover(m, clock, servers);
      && MeterOk(m1) && m1.quota == m.quota && SameCache(m.cache, m1.cache)
      && (forall o :: Get(m1.totals.grand, o, 0) == Get(m.totals.grand, o, 0))
      && (clock.now > m.ends.day ==> forall s :: s in servers ==> s in m1.cache.amount && Initialised(m1.totals, s, m1.ends.date))
  {
    if clock.now > m.ends.day {
      var over := DayOver(m, clock);
      forall s ensures Nested(over.totals, s) && Dated(over.totals, s) {
        assert Nested(m.totals, s) && Dated(m.totals, s);
      }
      InitServersKeeps(over, servers);
    }
  }

  /** After a rollover only the servers in the list have a counter for the day. */
  lemma {:induction false} InitServersDay(m: Meter, servers: seq<Id>, s: Id)
    ensures s in InitServers(m, servers).totals.day <==> s in m.totals.day || s in servers
    decreases |servers|
  {
    if servers != [] {
      InitServersDay(InitServer(m, servers[0]), servers[1..], s);
    }
  }

  /** A flush raises `KeyError` exactly when the day is over and bytes are still cached for a server that was removed
      from the list: the new day's counters are made for the listed servers only. */
  lemma FlushRaisesExactly(st: State, clock: Clock)
    requires StateOk(st)
    ensures Raises(Rollover(st.m, clock, st.servers)) <==>
      clock.now > st.m.ends.day && exists s :: s in st.m.cache.amount && st.m.cache.amount[s] != 0 && s !in st.servers
  {
    RolloverKeeps(st.m, clock, st.servers);
    var m1 := Rollover(st.m, clock, st.servers);
    if clock.now > st.m.ends.day {
      forall s | s in st.m.cache.amount && st.m.cache.amount[s] != 0
        ensures s in m1.cache.amount && m1.cache.amount[s] != 0 && (Initialised(m1.totals, s, m1.ends.date) <==> s in st.servers)
      {
        assert Get(m1.cache.amount, s, 0) == Get(st.m.cache.amount, s, 0);
        InitServersDay(DayOver(st.m, clock), st.servers, s);
      }
      forall s | s in m1.cache.amount && m1.cache.amount[s] != 0
        ensures s in st.m.cache.amount && st.m.cache.amount[s] != 0
      {
        assert Get(m1.cache.amount, s, 0) == Get(st.m.cache.amount, s, 0);
      }
    }
  }

  // ----------------------------------------------------------------------------------------------------- the flush

  lemma ChargedDates(timeline: map<Id, map<Date, int>>, amount: map<Id, int>, date: Date, s: Id)
    ensures Sum(Get(ChargedTimeline(timeline, amount, date), s, map[]))
            == Sum(Get(timeline, s, map[])) + (if s in timeline && date in timeline[s] then Get(amount, s, 0) else 0)
  {
    if s in timeline && date in timeline[s] {
      SumPut(timeline[s], date, timeline[s][date] + Get(amount, s, 0));
    }
  }

  /** Charging what is cached for initialised servers keeps the totals nested and dated. */
  lemma ChargedKeeps(t: Totals, amount: map<Id, int>, date: Date)
    requires TotalsOk(t) && forall s :: s in amount ==> amount[s] >= 0
    requires forall s :: s in amount && amount[s] != 0 ==> Initialised(t, s, date)
    ensures TotalsOk(ChargedTotals(t, amount, date))
    ensures forall s :: Get(ChargedTotals(t, amount, date).grand, s, 0) == Get(t.grand, s, 0) + Get(amount, s, 0)
    ensures forall s, d :: Initialised(t, s, d) ==> Initialised(ChargedTotals(t, amount, date), s, d)
  {
    var t1 := ChargedTotals(t, amount, date);
    forall s ensures Nested(t1, s) && Dated(t1, s) && Get(t1.grand, s, 0) == Get(t.grand, s, 0) + Get(amount, s, 0) {
      assert Nested(t, s) && Dated(t, s);
      ChargedDates(t.timeline, amount, date, s);
      assert Get(amount, s, 0) != 0 ==> Initialised(t, s, date);
    }
  }

  /** The speed of all servers together stays the sum of their speeds. */
  lemma NewSpeedKeeps(speed: Speed, cache: Cache, now: real, later: real)
    requires SpeedOk(speed, cache) && CacheOk(cache)
    ensures SpeedOk(NewSpeed(speed, cache, now), cache)
    ensures SpeedOk(ResetSpeed(speed, later), cache)
  {
    var total, last := AtLeastEpsilon(now - speed.start), AtLeastEpsilon(speed.last - speed.start);
    NewBpsSums(speed.serverBps, cache.amount, last, total);
    assert NewSpeed(speed, cache, now).serverBps == MapBoth(NewBpsOver(last, total), speed.serverBps, cache.amount);
    SumRealZero(ResetSpeed(speed, later).serverBps);
  }

  lemma FlushKeepsMeter(m: Meter, clock: Clock, servers: seq<Id>, later: real)
    requires MeterOk(m) && !Raises(Rollover(m, clock, servers))
    ensures var m1 := Flush(m, clock, servers, later);
      && MeterOk(m1)
      && (forall s :: Get(m1.totals.grand, s, 0) == Get(m.totals.grand, s, 0) + Get(m.cache.amount, s, 0))
      && (forall s :: Get(m1.cache.amount, s, 0) == 0)
      && m1.quota == ChargedQuota(m.quota, m.cache.sum)
  {
    RolloverKeeps(m, clock, servers);
    var m1 := Rollover(m, clock, servers);
    ChargedKeeps(m1.totals, m1.cache.amount, m1.ends.date);
    NewSpeedKeeps(m1.speed, m1.cache, clock.now, later);
    var speed := NewSpeed(m1.speed, m1.cache, clock.now);
    NewSpeedKeeps(speed, m1.cache, clock.now, later);
    SumZero(Zeroed(m1.cache.amount, 0));
  }

  lemma FlushKeepsReady(st: State, clock: Clock, later: real)
    requires StateOk(st) && !Raises(Rollover(st.m, clock, st.servers))
    ensures Ready(Ticked(st, clock, later))
  {
    RolloverKeeps(st.m, clock, st.servers);
    var m1 := Rollover(st.m, clock, st.servers);
    ChargedKeeps(m1.totals, m1.cache.amount, m1.ends.date);
  }

  lemma TickKeeps(st: State, clock: Clock, later: real)
    requires StateOk(st) && !Raises(Rollover(st.m, clock, st.servers))
    ensures StateOk(Ticked(st, clock, later))
  {
    FlushKeepsMeter(st.m, clock, st.servers, later);
    FlushKeepsReady(st, clock, later);
    forall s ensures Conserved(Ticked(st, clock, later), s) {
      assert Conserved(st, s);
    }
  }

  // ------------------------------------------------------------------------------------------------ the other steps

  lemma NewServerKeeps(st: State, s: Id)
    requires StateOk(st)
    ensures StateOk(st.(m := InitServer(st.m, s), servers := st.servers + [s]))
  {
    InitServerKeeps(st.m, s);
    var st1 := st.(m := InitServer(st.m, s), servers := st.servers + [s]);
    forall o | o in st1.m.cache.amount && st1.m.cache.amount[o] != 0 ensures Initialised(st1.m.totals, o, st1.m.ends.date) {
      assert Get(st1.m.cache.amount, o, 0) == Get(st.m.cache.amount, o, 0);
    }
    forall o ensures Conserved(st1, o) {
      assert Conserved(st, o);
    }
  }

  lemma GotBytesKeeps(st: State, s: Id, n: nat)
    requires StateOk(st) && s in st.servers && s in st.m.cache.amount
    ensures StateOk(st.(m := Receive(st.m, s, n), since := st.since[s := Get(st.since, s, 0) + n]))
  {
    var st1 := st.(m := Receive(st.m, s, n), since := st.since[s := Get(st.since, s, 0) + n]);
    SumPut(st.m.cache.amount, s, st.m.cache.amount[s] + n);
    forall o ensures Conserved(st1, o) {
      assert Conserved(st, o);
    }
  }

  lemma WithoutKeeps(t: Totals, s: Id)
    requires TotalsOk(t)
    ensures TotalsOk(Without(t, s)) && Get(Without(t, s).grand, s, 0) == 0
    ensures forall o :: o != s ==> Get(Without(t, s).grand, o, 0) == Get(t.grand, o, 0)
    ensures forall o, d :: o != s && Initialised(t, o, d) ==> Initialised(Without(t, s), o, d)
  {
    forall o ensures Nested(Without(t, s), o) && Dated(Without(t, s), o) {
      assert Nested(t, o) && Dated(t, o);
    }
  }

  /** Clearing a server sets its counters to zero and touches neither the cache nor another server. */
  lemma ClearServerKeeps(m: Meter, s: Id)
    requires MeterOk(m)
    ensures var m1 := ClearServer(m, s);
      && MeterOk(m1) && m1.ends == m.ends && m1.quota == m.quota && SameCache(m.cache, m1.cache)
      && Get(m1.totals.grand, s, 0) == 0 && Initialised(m1.totals, s, m.ends.date)
      && (forall o :: o != s ==> Get(m1.totals.grand, o, 0) == Get(m.totals.grand, o, 0))
      && (forall o, d :: o != s && Initialised(m.totals, o, d) ==> Initialised(m1.totals, o, d))
  {
    WithoutKeeps(m.totals, s);
    InitServerKeeps(m.(totals := Without(m.totals, s)), s);
  }

  lemma ClearReady(st: State, s: Id)
    requires MeterOk(st.m) && Ready(st)
    ensures Ready(Cleared(st, s))
  {
    ClearServerKeeps(st.m, s);
    var st1 := Cleared(st, s);
    forall o | o in st1.m.cache.amount && st1.m.cache.amount[o] != 0 ensures Initialised(st1.m.totals, o, st1.m.ends.date) {
      assert Get(st1.m.cache.amount, o, 0) == Get(st.m.cache.amount, o, 0);
    }
  }

  lemma ClearConserves(st: State, s: Id)
    requires MeterOk(st.m) && forall o :: Conserved(st, o)
    ensures forall o :: Conserved(Cleared(st, s), o)
  {
    ClearServerKeeps(st.m, s);
    var st1 := Cleared(st, s);
    forall o ensures Conserved(st1, o) {
      if o != s {
        assert Conserved(st, o);
        assert Get(st1.since, o, 0) == Get(st.since, o, 0) && Get(st1.held, o, 0) == Get(st.held, o, 0);
      }
    }
  }

  lemma ClearKeeps(st: State, s: Id)
    requires StateOk(st)
    ensures StateOk(Cleared(st, s))
  {
    ClearServerKeeps(st.m, s);
    ClearReady(st, s);
    ClearConserves(st, s);
  }

  lemma QuotaChangedKeeps(st: State, have: bool, size: real, usage: int, hasPeriod: bool)
    requires StateOk(st)
    ensures StateOk(QuotaChanged(st, have, size, usage, hasPeriod))
  {
    var st1 := QuotaChanged(st, have, size, usage, hasPeriod);
    forall o ensures Conserved(st1, o) {
      assert Conserved(st, o);
    }
  }

  lemma SmallStepsKeep(st: State, step: Step)
    requires StateOk(st) && Enabled(st, step)
    requires step.DropServer? || step.ResetRate? || step.EnableQuota? || step.QuotaReset?
    ensures StateOk(Next(st, step))
  {
    var st1 := Next(st, step);
    forall o ensures Conserved(st1, o) {
      assert Conserved(st, o);
    }
    if step.ResetRate? {
      SumRealZero(ResetSpeed(st.m.speed, step.now).serverBps);
    }
  }

  lemma QuotaChangeKeeps(st: State, have: bool, size: real, usage: int, hasPeriod: bool, clock: Clock, later: real)
    requires StateOk(st) && !Raises(Rollover(st.m, clock, st.servers))
    ensures StateOk(Ticked(QuotaChanged(st, have, size, usage, hasPeriod), clock, later))
  {
    QuotaChangedKeeps(st, have, size, usage, hasPeriod);
    SameRollover(st.m, QuotaChanged(st, have, size, usage, hasPeriod).m, clock, st.servers);
    TickKeeps(QuotaChanged(st, have, size, usage, hasPeriod), clock, later);
  }

  lemma ServerStepsKeep(st: State, step: Step)
    requires StateOk(st) && Enabled(st, step) && (step.NewServer? || step.GotBytes? || step.Clear?)
    ensures StateOk(Next(st, step))
  {
    if step.NewServer? {
      NewServerKeeps(st, step.s);
    } else if step.GotBytes? {
      GotBytesKeeps(st, step.s, step.n);
    } else {
      ClearKeeps(st, step.s);
    }
  }

  lemma FlushStepsKeep(st: State, step: Step)
    requires StateOk(st) && Enabled(st, step) && (step.Tick? || step.QuotaChange?)
    ensures StateOk(Next(st, step))
  {
    match step
    case Tick(clock, later) => TickKeeps(st, clock, later);
    case QuotaChange(have, size, usage, hasPeriod, clock, later) =>
      QuotaChangeKeeps(st, have, size, usage, hasPeriod, clock, later);
  }

  lemma NextKeeps(st: State, step: Step)
    requires StateOk(st) && Enabled(st, step)
    ensures StateOk(Next(st, step))
  {
    if step.NewServer? || step.GotBytes? || step.Clear? {
      ServerStepsKeep(st, step);
    } else if step.Tick? || step.QuotaChange? {
      FlushStepsKeep(st, step);
    } else {
      SmallStepsKeep(st, step);
    }
  }

  /** The quota plays no part in a rollover. */
  lemma SameRollover(m: Meter, m1: Meter, clock: Clock, servers: seq<Id>)
    requires m1 == m.(quota := m1.quota)
    ensures Rollover(m1, clock, servers) == Rollover(m, clock, servers).(quota := m1.quota)
  {
    SameInit(DayOver(m, clock), m1.quota, servers);
  }

  lemma {:induction false} SameInit(m: Meter, quota: Quota, servers: seq<Id>)
    ensures InitServers(m.(quota := quota), servers) == InitServers(m, servers).(quota := quota)
    decreases |servers|
  {
    if servers != [] {
      SameInit(InitServer(m, servers[0]), quota, servers[1..]);
      assert InitServer(m.(quota := quota), servers[0]) == InitServer(m, servers[0]).(quota := quota);
    }
  }

  // --------------------------------------------------------------------------------------------------- every run

  ghost predicate Run(first: State, steps: seq<Step>, last: State)
    decreases |steps|
  {
    if steps == [] then last == first else Enabled(first, steps[0]) && Run(Next(first, steps[0]), steps[1..], last)
  }

  lemma {:induction false} RunKeeps(first: State, steps: seq<Step>, last: State)
    requires StateOk(first) && Run(first, steps, last)
    ensures StateOk(last)
    decreases |steps|
  {
    if steps != [] {
      NextKeeps(first, steps[0]);
      RunKeeps(Next(first, steps[0]), steps[1..], last);
    }
  }

  /** A meter that counted nothing yet. */
  predicate Zero(st: State) {
    && st.m.totals == Totals(map[], map[], map[], map[], map[]) && st.m.cache == Cache(map[], 0)
    && st.m.speed.bps == 0.0 && st.m.speed.serverBps == map[] && st.m.quota.size == 0.0
    && st.servers == [] && st.since == map[] && st.held == map[]
  }

  lemma ZeroIsOk(st: State)
    requires Zero(st)
    ensures StateOk(st)
  {
  }

  lemma ThreeSteps(first: State, a: Step, b: Step, c: Step, st1: State, st2: State, last: State)
    requires Enabled(first, a) && Next(first, a) == st1 && Enabled(st1, b) && Next(st1, b) == st2
    requires Enabled(st2, c) && Next(st2, c) == last
    ensures Run(first, [a, b, c], last)
  {
    var steps := [a, b, c];
    assert Run(last, steps[3..], last);
    assert steps[2..][1..] == steps[3..] && Run(st2, steps[2..], last);
    assert steps[1..][1..] == steps[2..] && Run(st1, steps[1..], last);
  }

  /** Every meter, from zero: a server is set up, receives something and is removed; the flush at the end of the day
      raises. */
  lemma RemovedServerRaises(first: State, s: Id, n: nat, clock: Clock)
    requires Zero(first) && n > 0 && clock.now > first.m.ends.day
    ensures exists steps, last :: Run(first, steps, last) && Raises(Rollover(last.m, clock, last.servers))
  {
    var steps := [NewServer(s), GotBytes(s, n), DropServer(0)];
    var st1 := Next(first, steps[0]);
    assert st1.servers == [s] && st1.m.cache.amount[s] == 0;
    var st2 := Next(st1, steps[1]);
    var last := Next(st2, steps[2]);
    assert last.servers == [] && last.m.cache.amount[s] == n && last.m.ends == first.m.ends;
    ThreeSteps(first, steps[0], steps[1], steps[2], st1, st2, last);
    ZeroIsOk(first);
    RunKeeps(first, steps, last);
    FlushRaisesExactly(last, clock);
  }

  /** Starting from zero, on every run: for every server, what was received since the last clear plus what was cached at
      it is counted or still cached; the grand total is the sum of the days of the timeline; and the day's total is at
      most the week's and the month's, which are at most the grand total. */
  lemma EveryByteIsCounted(first: State, steps: seq<Step>, last: State, s: Id)
    requires Zero(first) && Run(first, steps, last)
    ensures Get(last.since, s, 0) + Get(last.held, s, 0) == Get(last.m.totals.grand, s, 0) + Get(last.m.cache.amount, s, 0)
    ensures Get(last.m.totals.grand, s, 0) == Sum(Get(last.m.totals.timeline, s, map[]))
    ensures 0 <= Get(last.m.totals.day, s, 0) <= Get(last.m.totals.week, s, 0) <= Get(last.m.totals.grand, s, 0)
    ensures Get(last.m.totals.day, s, 0) <= Get(last.m.totals.month, s, 0) <= Get(last.m.totals.grand, s, 0)
  {
    ZeroIsOk(first);
    RunKeeps(first, steps, last);
    assert Conserved(last, s) && Nested(last.m.totals, s) && Dated(last.m.totals, s);
  }

  /** On every run the speed is the sum of the servers' speeds, and the sum of what is cached is kept exactly. */
  lemma EverySumIsExact(first: State, steps: seq<Step>, last: State)
    requires Zero(first) && Run(first, steps, last)
    ensures last.m.speed.bps == SumReal(last.m.speed.serverBps)
    ensures last.m.cache.sum == Sum(last.m.cache.amount)
  {
    ZeroIsOk(first);
    RunKeeps(first, steps, last);
  }

  /** On every run, while a quota is set, what is missing from it is what was charged since it was set or reset. */
  lemma QuotaIsUsage(first: State, steps: seq<Step>, last: State)
    requires Zero(first) && Run(first, steps, last) && last.m.quota.size != 0.0
    ensures last.m.quota.size - last.m.quota.left == last.used
  {
    ZeroIsOk(first);
    RunKeeps(first, steps, last);
  }

  /** A change of quota keeps its usage exactly when there was a quota before, or nothing was left of none. */
  lemma ChangeKeepsUsageExactly(quota: Quota, size: real, usage: int, hasPeriod: bool)
    requires quota.have
    ensures var q := ChangeQuota(quota, true, size, usage, hasPeriod);
      q.size - q.left == quota.size - quota.left <==> quota.size != 0.0 || quota.left == 0.0
  {
  }

  /** A quota of size zero on the way turns the usage into its opposite. */
  lemma ZeroSizeFlipsUsage(quota: Quota, size: real, usage: int, hasPeriod: bool)
    requires quota.have && quota.size != 0.0
    ensures var zero := ChangeQuota(quota, true, 0.0, usage, hasPeriod);
      var q := ChangeQuota(zero, true, size, usage, hasPeriod);
      q.size - q.left == -(quota.size - quota.left)
  {
  }

  /** Weeks and months end only with a day: a flush before the end of the day loses nothing from any counter. */
  lemma NothingEndsWithinTheDay(st: State, clock: Clock, later: real, s: Id)
    requires StateOk(st) && clock.now <= st.m.ends.day
    ensures !Raises(Rollover(st.m, clock, st.servers))
    ensures var t, t1, n := st.m.totals, Flush(st.m, clock, st.servers, later).totals, Get(st.m.cache.amount, s, 0);
      && Get(t1.day, s, 0) == Get(t.day, s, 0) + n && Get(t1.week, s, 0) == Get(t.week, s, 0) + n
      && Get(t1.month, s, 0) == Get(t.month, s, 0) + n && Get(t1.grand, s, 0) == Get(t.grand, s, 0) + n
  {
    FlushRaisesExactly(st, clock);
    assert Get(st.m.cache.amount, s, 0) != 0 ==> Initialised(st.m.totals, s, st.m.ends.date);
  }
}