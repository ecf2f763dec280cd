/**
 `BPSMeter` as the object the program updates in place. Each method is proved to do what its function in `Meters` says;
 what every run keeps is proved in `Metering`.
 */
module BpsMeters {
  import opened Meters

  class BPSMeter {
    var startTime: real
    var lastUpdate: real
    var bps: real
    var serverBps: map<Id, real>
    var cachedAmount: map<Id, int>
    var sumCachedAmount: int
    var dayTotal: map<Id, int>
    var weekTotal: map<Id, int>
    var monthTotal: map<Id, int>
    var grandTotal: map<Id, int>
    var timelineTotal: map<Id, map<Date, int>>
    var dayLabel: Date
    var endOfDay: real
    var endOfWeek: real
    var endOfMonth: real
    var quota: real
    var left: real
    var haveQuota: bool
    var quotaEnabled: bool

    ghost function TotalsNow(): Totals
      reads this`dayTotal, this`weekTotal, this`monthTotal, this`grandTotal, this`timelineTotal
    {
      Totals(dayTotal, weekTotal, monthTotal, grandTotal, timelineTotal)
    }

    ghost function SpeedNow(): Speed
      reads this`startTime, this`lastUpdate, this`bps, this`serverBps
    {
      Speed(startTime, lastUpdate, bps, serverBps)
    }

    ghost function CacheNow(): Cache
      reads this`cachedAmount, this`sumCachedAmount
    {
      Cache(cachedAmount, sumCachedAmount)
    }

    ghost function EndsNow(): Ends
      reads this`dayLabel, this`endOfDay, this`endOfWeek, this`endOfMonth
    {
      Ends(dayLabel, endOfDay, endOfWeek, endOfMonth)
    }

    ghost function QuotaNow(): Quota
      reads this`quota, this`left, this`haveQuota, this`quotaEnabled
    {
      Quota(quota, left, haveQuota, quotaEnabled)
    }

    ghost function Model(): Meter
      reads this
    {
      Meter(TotalsNow(), SpeedNow(), CacheNow(), EndsNow(), QuotaNow())
    }

    constructor (clock: Clock)
      ensures Model() == Meter(Totals(map[], map[], map[], map[], map[]), Speed(clock.now, clock.now, 0.0, map[]), Cache(map[], 0),
                               Ends(clock.date, clock.endOfDay, clock.endOfWeek, clock.endOfMonth), Quota(0.0, 0.0, false, true))
    {
      startTime, lastUpdate, bps, serverBps := clock.now, clock.now, 0.0, map[];
      cachedAmount, sumCachedAmount := map[], 0;
      dayTotal, weekTotal, monthTotal, grandTotal, timelineTotal := map[], map[], map[], map[], map[];
      dayLabel, endOfDay, endOfWeek, endOfMonth := clock.date, clock.endOfDay, clock.endOfWeek, clock.endOfMonth;
      quota, left, haveQuota, quotaEnabled := 0.0, 0.0, false, true;
    }

    method InitServerStats(s: Id)
      modifies this
      ensures Model() == InitServer(old(Model()), s)
    {
      ghost var before := Model();
      InitRates(s);
      assert TotalsNow() == before.totals && EndsNow() == before.ends;
      InitCounters(s);
      assert QuotaNow() == before.quota && EndsNow() == before.ends;
    }

    method InitRates(s: Id)
      modifies this`cachedAmount, this`serverBps
      ensures CacheNow() == InitServer(old(Model()), s).cache && SpeedNow() == InitServer(old(Model()), s).speed
    {
      if s !in cachedAmount {
        cachedAmount := cachedAmount[s := 0];
        serverBps := serverBps[s := 0.0];
      }
      if s !in serverBps {
        serverBps := serverBps[s := 0.0];
      }
    }

    method InitCounters(s: Id)
      modifies this`dayTotal, this`weekTotal, this`monthTotal, this`grandTotal, this`timelineTotal
      ensures TotalsNow() == InitTotals(old(TotalsNow()), s, dayLabel)
    {
      dayTotal := Known(dayTotal, s, 0);
      weekTotal := Known(weekTotal, s, 0);
      monthTotal := Known(monthTotal, s, 0);
      grandTotal := Known(grandTotal, s, 0);
      timelineTotal := timelineTotal[s := Known(Get(timelineTotal, s, map[]), dayLabel, 0)];
    }

    /** `update` for a server. */
    method Receive(s: Id, n: int)
      requires s in cachedAmount
      modifies this`cachedAmount, this`sumCachedAmount
      ensures Model() == Meters.Receive(old(Model()), s, n)
    {
      cachedAmount := cachedAmount[s := cachedAmount[s] + n];
      sumCachedAmount := sumCachedAmount + n;
    }

    /** `reset`. */
    method Reset(now: real)
      modifies this`startTime, this`lastUpdate, this`bps, this`serverBps
      ensures SpeedNow() == ResetSpeed(old(SpeedNow()), now)
    {
      startTime, lastUpdate, bps := now, now, 0.0;
      ghost var was := serverBps;
      var todo := serverBps.Keys;
      while todo != {}
        invariant startTime == now && lastUpdate == now && bps == 0.0
        invariant todo <= was.Keys && serverBps == map s | s in was :: if s in todo then was[s] else 0.0
        decreases todo
      {
        var s :| s in todo;
        serverBps := serverBps[s := 0.0];
        todo := todo - {s};
      }
      assert serverBps == Zeroed(was, 0.0);
    }

    method EndDay(clock: Clock)
      modifies this`dayLabel, this`endOfDay, this`dayTotal, this`endOfWeek, this`weekTotal, this`endOfMonth, this`monthTotal
      ensures TotalsNow() == DayOver(old(Model()), clock).totals && EndsNow() == DayOver(old(Model()), clock).ends
    {
      dayLabel, endOfDay, dayTotal := clock.date, clock.endOfDay, map[];
      if clock.now > endOfWeek {
        weekTotal, endOfWeek := map[], clock.endOfWeek;
      }
      if clock.now > endOfMonth {
        monthTotal, endOfMonth := map[], clock.endOfMonth;
      }
    }

    /** The start of `update`. */
    method Rollover(clock: Clock, servers: seq<Id>)
      modifies this
      ensures Model() == Meters.Rollover(old(Model()), clock, servers)
    {
      if clock.now > endOfDay {
        EndDay(clock);
        InitAll(servers);
      }
    }

    method InitAll(servers: seq<Id>)
      modifies this
      ensures Model() == InitServers(old(Model()), servers)
    {
      ghost var target := InitServers(Model(), servers);
      var i := 0;
      assert servers[i..] == servers;
      while i < |servers|
        invariant i <= |servers| && InitServers(Model(), servers[i..]) == target
      {
        assert servers[i..][1..] == servers[i + 1..];
        InitServerStats(servers[i]);
        i := i + 1;
      }
    }

    method AddToCounters(s: Id, n: int)
      requires Initialised(TotalsNow(), s, dayLabel)
      modifies this`dayTotal, this`weekTotal, this`monthTotal, this`grandTotal, this`timelineTotal
      ensures TotalsNow() == AddedTo(old(TotalsNow()), s, n, dayLabel)
    {
      dayTotal := dayTotal[s := dayTotal[s] + n];
      weekTotal := weekTotal[s := weekTotal[s] + n];
      monthTotal := monthTotal[s := monthTotal[s] + n];
      grandTotal := grandTotal[s := grandTotal[s] + n];
      timelineTotal := timelineTotal[s := timelineTotal[s][dayLabel := timelineTotal[s][dayLabel] + n]];
    }

    ghost function Flushing(): FlushState
      reads this`dayTotal, this`weekTotal, this`monthTotal, this`grandTotal, this`timelineTotal, this`cachedAmount, this`serverBps
    {
      FlushState(TotalsNow(), cachedAmount, serverBps)
    }

    /** One turn of the loop of `update`: the bytes cached for one server go to its counters, and its speed is taken; true
        when a counter is missing. */
    method FlushServer(s: Id, last: real, total: real) returns (raised: bool)
      requires s in cachedAmount && s in serverBps && total > 0.0
      modifies this`dayTotal, this`weekTotal, this`monthTotal, this`grandTotal, this`timelineTotal, this`cachedAmount, this`serverBps
      ensures raised <==> old(cachedAmount[s]) != 0 && !Initialised(old(TotalsNow()), s, dayLabel)
      ensures !raised ==> Flushing() == OneFlushed(old(Flushing()), s, dayLabel, last, total)
    {
      var cached := cachedAmount[s];
      raised := false;
      if cached != 0 {
        if s in dayTotal && s in weekTotal && s in monthTotal && s in grandTotal && s in timelineTotal && dayLabel in timelineTotal[s] {
          AddToCounters(s, cached);
          cachedAmount := cachedAmount[s := 0];
        } else {
          return true;
        }
      }
      serverBps := serverBps[s := NewBps(serverBps[s], last, cached, total)];
    }

    /** The loop of `update` over the cached amounts; it ends where a counter is missing. */
    method FlushServers(last: real, total: real) returns (raised: bool)
      requires total > 0.0 && cachedAmount.Keys <= serverBps.Keys
      modifies this`dayTotal, this`weekTotal, this`monthTotal, this`grandTotal, this`timelineTotal, this`cachedAmount, this`serverBps
      ensures raised <==> !AllInitialised(old(TotalsNow()), old(cachedAmount), dayLabel)
      ensures !raised ==> Flushing() == AllFlushed(old(Flushing()), dayLabel, last, total)
    {
      ghost var start := Flushing();
      var todo := cachedAmount.Keys;
      ghost var done: set<Id> := {};
      NoneFlushed(start, dayLabel, last, total);
      while todo != {}
        invariant todo !! done && todo + done == start.amount.Keys
        invariant Flushing() == PartFlushed(start, done, dayLabel, last, total)
        invariant AllInitialised(start.totals, Part(start.amount, done), dayLabel)
        decreases todo
      {
        var s :| s in todo;
        OneMoreFlushed(start, done, s, dayLabel, last, total);
        raised := FlushServer(s, last, total);
        if raised {
          return true;
        }
        todo, done := todo - {s}, done + {s};
      }
      EveryoneFlushed(start, done, dayLabel, last, total);
      raised := false;
    }

    /** `update` without a server. */
    method Flush(clock: Clock, servers: seq<Id>, later: real) returns (raised: bool)
      requires cachedAmount.Keys <= serverBps.Keys
      modifies this
      ensures raised <==> Raises(Meters.Rollover(old(Model()), clock, servers))
      ensures !raised ==> Model() == Meters.Flush(old(Model()), clock, servers, later)
    {
      RatesStayKnown(Model(), clock, servers);
      Rollover(clock, servers);
      raised := FlushAll(clock.now, later);
    }

    /** What `update` does after a new day was begun. */
    method FlushAll(now: real, later: real) returns (raised: bool)
      requires cachedAmount.Keys <= serverBps.Keys
      modifies this
      ensures raised <==> Raises(old(Model()))
      ensures !raised ==> Model() == Flushed(old(Model()), now, later)
    {
      ghost var before := Model();
      var total, last := AtLeastEpsilon(now - startTime), AtLeastEpsilon(lastUpdate - startTime);
      raised := FlushServers(last, total);
      assert QuotaNow() == before.quota && EndsNow() == before.ends;
      if !raised {
        ChargeQuota(sumCachedAmount);
        EndUpdate(before.speed, before.cache, now, later);
      }
    }

    method ChargeQuota(bytes: int)
      modifies this`left
      ensures QuotaNow() == ChargedQuota(old(QuotaNow()), bytes)
    {
      if haveQuota && quotaEnabled {
        left := left - bytes as real;
      }
    }

    /** The end of `update`: the speed of all servers, and the window it is over. */
    method EndUpdate(ghost speed0: Speed, ghost cache0: Cache, now: real, later: real)
      requires startTime == speed0.start && lastUpdate == speed0.last && bps == speed0.bps && sumCachedAmount == cache0.sum
      requires serverBps == NewSpeed(speed0, cache0, now).serverBps
      modifies this`startTime, this`lastUpdate, this`bps, this`serverBps, this`sumCachedAmount
      ensures sumCachedAmount == 0
      ensures SpeedNow() == EndSpeed(speed0, cache0, now, later)
    {
      var total, last := AtLeastEpsilon(now - startTime), AtLeastEpsilon(lastUpdate - startTime);
      bps := NewBps(bps, last, sumCachedAmount, total);
      sumCachedAmount := 0;
      lastUpdate := now;
      if startTime < now - 5.0 {
        startTime := now - 5.0;
      }
      assert SpeedNow() == NewSpeed(speed0, cache0, now);
      if bps < 0.01 {
        Reset(later);
      }
    }

    /** `clear_server`. */
    method ClearServer(s: Id)
      modifies this
      ensures Model() == Meters.ClearServer(old(Model()), s)
    {
      RemoveCounters(s);
      InitServerStats(s);
    }

    method RemoveCounters(s: Id)
      modifies this`dayTotal, this`weekTotal, this`monthTotal, this`grandTotal, this`timelineTotal
      ensures TotalsNow() == Without(old(TotalsNow()), s)
    {
      dayTotal := dayTotal - {s};
      weekTotal := weekTotal - {s};
      monthTotal := monthTotal - {s};
      grandTotal := grandTotal - {s};
      timelineTotal := timelineTotal - {s};
    }

    /** `reset_quota`, when it is time. */
    method ResetQuota(size: real)
      modifies this`quota, this`left
      ensures QuotaNow() == Meters.ResetQuota(old(QuotaNow()), size)
    {
      quota, left := size, size;
    }

    /** `change_quota` up to its `update`. */
    method ChangeQuota(have: bool, size: real, usage: int, hasPeriod: bool)
      modifies this`quota, this`left, this`haveQuota
      ensures QuotaNow() == Meters.ChangeQuota(old(QuotaNow()), have, size, usage, hasPeriod)
    {
      if !haveQuota && quota < 0.5 {
        if hasPeriod {
          left := usage as real;
        }
      }
      haveQuota := have;
      if haveQuota {
        if quota != 0.0 {
          left := size - (quota - left);
        } else {
          left := size - left;
        }
        quota := size;
      } else {
        quota, left := 0.0, 0.0;
      }
    }
  }

  // ----------------------------------------------------------------------------------------- parts of what is cached

  /** What is cached for some of the servers. */
  ghost function Part(amount: map<Id, int>, done: set<Id>): map<Id, int> {
    map s | s in amount && s in done :: amount[s]
  }

  ghost function PartBps(bps: map<Id, real>, amount: map<Id, int>, done: set<Id>, last: real, total: real): map<Id, real>
    requires total > 0.0
  {
    map s | s in bps :: if s in amount && s in done then NewBps(bps[s], last, amount[s], total) else bps[s]
  }

  ghost function PartCached(amount: map<Id, int>, done: set<Id>): map<Id, int> {
    map s | s in amount :: if s in done then 0 else amount[s]
  }

  lemma CachedMore(amount: map<Id, int>, bps: map<Id, real>, done: set<Id>, s: Id, last: real, total: real)
    requires s in amount && s in bps && s !in done && total > 0.0
    ensures PartCached(amount, done)[s] == amount[s] && PartCached(amount, done)[s := 0] == PartCached(amount, done + {s})
    ensures PartBps(bps, amount, done, last, total)[s := NewBps(bps[s], last, amount[s], total)]
            == PartBps(bps, amount, done + {s}, last, total)
    ensures PartBps(bps, amount, done, last, total)[s] == bps[s]
  {
  }

  lemma PartAll(amount: map<Id, int>, bps: map<Id, real>, done: set<Id>, last: real, total: real)
    requires done == amount.Keys && total > 0.0
    ensures Part(amount, done) == amount && PartCached(amount, done) == Zeroed(amount, 0)
    ensures PartBps(bps, amount, done, last, total) == NewServerBps(bps, amount, last, total)
  {
  }

  lemma PartEmpty(t: Totals, amount: map<Id, int>, date: Date)
    ensures ChargedTotals(t, Part(amount, {}), date) == t
  {
    var none := Part(amount, {});
    assert Charged(t.day, none) == t.day && Charged(t.week, none) == t.week;
    assert Charged(t.month, none) == t.month && Charged(t.grand, none) == t.grand;
    forall o | o in t.timeline ensures ChargedTimeline(t.timeline, none, date)[o] == t.timeline[o] {
      assert date in t.timeline[o] ==> t.timeline[o][date := t.timeline[o][date] + 0] == t.timeline[o];
    }
    assert ChargedTimeline(t.timeline, none, date) == t.timeline;
  }

  lemma ChargedMore(total: map<Id, int>, amount: map<Id, int>, done: set<Id>, s: Id)
    requires s in amount && s !in done
    ensures Charged(Charged(total, Part(amount, done)), map[s := amount[s]]) == Charged(total, Part(amount, done + {s}))
  {
  }

  lemma TimelineMore(timeline: map<Id, map<Date, int>>, amount: map<Id, int>, done: set<Id>, s: Id, date: Date)
    requires s in amount && s !in done
    ensures ChargedTimeline(ChargedTimeline(timeline, Part(amount, done), date), map[s := amount[s]], date)
            == ChargedTimeline(timeline, Part(amount, done + {s}), date)
  {
    var before := ChargedTimeline(timeline, Part(amount, done), date);
    var left, right := ChargedTimeline(before, map[s := amount[s]], date), ChargedTimeline(timeline, Part(amount, done + {s}), date);
    forall o | o in timeline ensures left[o] == right[o] {
      if date in timeline[o] {
        assert left[o] == timeline[o][date := timeline[o][date] + Get(Part(amount, done), o, 0) + Get(map[s := amount[s]], o, 0)];
      }
    }
    assert left == right;
  }

  /** Charging some servers and then one more. */
  lemma PartMore(t: Totals, amount: map<Id, int>, done: set<Id>, s: Id, date: Date)
    requires s in amount && s !in done
    ensures var before := ChargedTotals(t, Part(amount, done), date);
      && ChargedTotals(before, map[s := amount[s]], date) == ChargedTotals(t, Part(amount, done + {s}), date)
      && (Initialised(before, s, date) <==> Initialised(t, s, date))
  {
    ChargedMore(t.day, amount, done, s);
    ChargedMore(t.week, amount, done, s);
    ChargedMore(t.month, amount, done, s);
    ChargedMore(t.grand, amount, done, s);
    TimelineMore(t.timeline, amount, done, s, date);
  }

  /** Every server with a cached amount keeps having a speed. */
  lemma RatesStayKnown(m: Meter, clock: Clock, servers: seq<Id>)
    requires m.cache.amount.Keys <= m.speed.serverBps.Keys
    ensures var m1 := Meters.Rollover(m, clock, servers); m1.cache.amount.Keys <= m1.speed.serverBps.Keys
  {
    InitKeepsRates(DayOver(m, clock), servers);
  }

  lemma {:induction false} InitKeepsRates(m: Meter, servers: seq<Id>)
    requires m.cache.amount.Keys <= m.speed.serverBps.Keys
    ensures var m1 := InitServers(m, servers); m1.cache.amount.Keys <= m1.speed.serverBps.Keys
    decreases |servers|
  {
    if servers != [] {
      InitKeepsRates(InitServer(m, servers[0]), servers[1..]);
    }
  }

  function AddedTo(t: Totals, s: Id, n: int, date: Date): Totals
    requires Initialised(t, s, date)
  {
    Totals(t.day[s := t.day[s] + n], t.week[s := t.week[s] + n], t.month[s := t.month[s] + n], t.grand[s := t.grand[s] + n],
           t.timeline[s := t.timeline[s][date := t.timeline[s][date] + n]])
  }

  /** What the loop of `update` works on. */
  datatype FlushState = FlushState(totals: Totals, amount: map<Id, int>, bps: map<Id, real>)

  function OneFlushed(f: FlushState, s: Id, date: Date, last: real, total: real): FlushState
    requires s in f.amount && s in f.bps && total > 0.0 && (f.amount[s] != 0 ==> Initialised(f.totals, s, date))
  {
    FlushState(if f.amount[s] != 0 then AddedTo(f.totals, s, f.amount[s], date) else f.totals,
               f.amount[s := 0], f.bps[s := NewBps(f.bps[s], last, f.amount[s], total)])
  }

  ghost function PartFlushed(f: FlushState, done: set<Id>, date: Date, last: real, total: real): FlushState
    requires total > 0.0
  {
    FlushState(ChargedTotals(f.totals, Part(f.amount, done), date), PartCached(f.amount, done), PartBps(f.bps, f.amount, done, last, total))
  }

  ghost function AllFlushed(f: FlushState, date: Date, last: real, total: real): FlushState
    requires total > 0.0
  {
    FlushState(ChargedTotals(f.totals, f.amount, date), Zeroed(f.amount, 0), NewServerBps(f.bps, f.amount, last, total))
  }

  lemma NoneFlushed(f: FlushState, date: Date, last: real, total: real)
    requires total > 0.0
    ensures PartFlushed(f, {}, date, last, total) == f
  {
    PartEmpty(f.totals, f.amount, date);
    assert PartCached(f.amount, {}) == f.amount && PartBps(f.bps, f.amount, {}, last, total) == f.bps;
  }

  lemma EveryoneFlushed(f: FlushState, done: set<Id>, date: Date, last: real, total: real)
    requires total > 0.0 && done == f.amount.Keys
    ensures PartFlushed(f, done, date, last, total) == AllFlushed(f, date, last, total)
    ensures Part(f.amount, done) == f.amount
  {
    PartAll(f.amount, f.bps, done, last, total);
  }

  lemma OneMoreFlushed(f: FlushState, done: set<Id>, s: Id, date: Date, last: real, total: real)
    requires total > 0.0 && s in f.amount && s in f.bps && s !in done
    ensures var before := PartFlushed(f, done, date, last, total);
      && s in before.amount && s in before.bps && before.amount[s] == f.amount[s]
      && (Initialised(before.totals, s, date) <==> Initialised(f.totals, s, date))
      && (f.amount[s] != 0 ==> Initialised(f.totals, s, date)) ==>
           OneFlushed(before, s, date, last, total) == PartFlushed(f, done + {s}, date, last, total)
  {
    var before := PartFlushed(f, done, date, last, total);
    PartMore(f.totals, f.amount, done, s, date);
    CachedMore(f.amount, f.bps, done, s, last, total);
    if f.amount[s] == 0 {
      ChargeNothing(before.totals, s, date);
    } else if Initialised(f.totals, s, date) {
      ChargeOne(before.totals, s, f.amount[s], date);
    }
  }

  lemma ChargeNothing(t: Totals, s: Id, date: Date)
    ensures ChargedTotals(t, map[s := 0], date) == t
  {
    assert Charged(t.day, map[s := 0]) == t.day;
    assert Charged(t.week, map[s := 0]) == t.week;
    assert Charged(t.month, map[s := 0]) == t.month;
    assert Charged(t.grand, map[s := 0]) == t.grand;
    forall o | o in t.timeline ensures ChargedTimeline(t.timeline, map[s := 0], date)[o] == t.timeline[o] {
      assert date in t.timeline[o] ==> t.timeline[o][date := t.timeline[o][date] + 0] == t.timeline[o];
    }
    assert ChargedTimeline(t.timeline, map[s := 0], date) == t.timeline;
  }

  /** Charging one server changes its own entries only. */
  lemma ChargeOne(t: Totals, s: Id, n: int, date: Date)
    requires Initialised(t, s, date)
    ensures ChargedTotals(t, map[s := n], date) == AddedTo(t, s, n, date)
  {
    assert Charged(t.day, map[s := n]) == t.day[s := t.day[s] + n];
    assert Charged(t.week, map[s := n]) == t.week[s := t.week[s] + n];
    assert Charged(t.month, map[s := n]) == t.month[s := t.month[s] + n];
    assert Charged(t.grand, map[s := n]) == t.grand[s := t.grand[s] + n];
    var timeline1 := t.timeline[s := t.timeline[s][date := t.timeline[s][date] + n]];
    forall o | o in t.timeline ensures ChargedTimeline(t.timeline, map[s := n], date)[o] == timeline1[o] {
      assert o != s && date in t.timeline[o] ==> t.timeline[o][date := t.timeline[o][date] + 0] == t.timeline[o];
    }
    assert ChargedTimeline(t.timeline, map[s := n], date) == timeline1;
  }
}
