/**
 The byte counters, speeds and quota of `BPSMeter`, as functions on values, and what every run of them keeps. Bytes are
 integers and speeds are reals, so that rounding is not part of the model.
 */
module Meters {

  /** Server ids and day labels are only ever compared. */
  datatype Id = Id(n: int)
  datatype Date = Date(n: int)

  datatype Totals = Totals(
    day: map<Id, int>, week: map<Id, int>, month: map<Id, int>, grand: map<Id, int>,
    timeline: map<Id, map<Date, int>>)

  datatype Speed = Speed(start: real, last: real, bps: real, serverBps: map<Id, real>)

  /** `cached_amount` and `sum_cached_amount`. */
  datatype Cache = Cache(amount: map<Id, int>, sum: int)

  datatype Ends = Ends(date: Date, day: real, week: real, month: real)

  datatype Quota = Quota(size: real, left: real, have: bool, enabled: bool)

  datatype Meter = Meter(totals: Totals, speed: Speed, cache: Cache, ends: Ends, quota: Quota)

  /** What a flush reads of the clock and the calendar. */
  datatype Clock = Clock(now: real, date: Date, endOfDay: real, endOfWeek: real, endOfMonth: real)

  function Get<K, V>(m: map<K, V>, k: K, default: V): V {
    if k in m then m[k] else default
  }

  // ------------------------------------------------------------------------------------------------ the operations

  function Known<K, V>(m: map<K, V>, s: K, zero: V): map<K, V> {
    if s in m then m else m[s := zero]
  }

  function InitTotals(t: Totals, s: Id, date: Date): Totals {
    Totals(Known(t.day, s, 0), Known(t.week, s, 0), Known(t.month, s, 0), Known(t.grand, s, 0),
           t.timeline[s := Known(Get(t.timeline, s, map[]), date, 0)])
  }

  /** `init_server_stats`. */
  function InitServer(m: Meter, s: Id): Meter {
    m.(totals := InitTotals(m.totals, s, m.ends.date),
       cache := m.cache.(amount := Known(m.cache.amount, s, 0)),
       speed := m.speed.(serverBps := if s in m.cache.amount then Known(m.speed.serverBps, s, 0.0) else m.speed.serverBps[s := 0.0]))
  }

  function InitServers(m: Meter, servers: seq<Id>): Meter
    decreases |servers|
  {
    if servers == [] then m else InitServers(InitServer(m, servers[0]), servers[1..])
  }

  /** `update` for a server. */
  function Receive(m: Meter, s: Id, n: int): Meter
    requires s in m.cache.amount
  {
    m.(cache := Cache(m.cache.amount[s := m.cache.amount[s] + n], m.cache.sum + n))
  }

  /** The end of a day, and with it perhaps of a week and of a month. */
  function DayOver(m: Meter, clock: Clock): Meter {
    var weekOver, monthOver := clock.now > m.ends.week, clock.now > m.ends.month;
    m.(totals := m.totals.(day := map[], week := if weekOver then map[] else m.totals.week, month := if monthOver then map[] else m.totals.month),
       ends := Ends(clock.date, clock.endOfDay, if weekOver then clock.endOfWeek else m.ends.week,
                    if monthOver then clock.endOfMonth else m.ends.month))
  }

  /** The start of `update`: on a new day the counters are made again for the servers in the list. */
  function Rollover(m: Meter, clock: Clock, servers: seq<Id>): Meter {
    if clock.now > m.ends.day then InitServers(DayOver(m, clock), servers) else m
  }

  /** The server has an entry in every counter that a flush adds to. */
  predicate Initialised(t: Totals, s: Id, date: Date) {
    s in t.day && s in t.week && s in t.month && s in t.grand && s in t.timeline && date in t.timeline[s]
  }

  predicate AllInitialised(t: Totals, amount: map<Id, int>, date: Date) {
    forall s :: s in amount && amount[s] != 0 ==> Initialised(t, s, date)
  }

  /** Adding cached bytes to a counter that has no entry raises `KeyError`. */
  predicate Raises(m: Meter) {
    !AllInitialised(m.totals, m.cache.amount, m.ends.date)
  }

  function Charged(total: map<Id, int>, amount: map<Id, int>): map<Id, int> {
    map s | s in total :: total[s] + Get(amount, s, 0)
  }

  function ChargedTimeline(timeline: map<Id, map<Date, int>>, amount: map<Id, int>, date: Date): map<Id, map<Date, int>> {
    map s | s in timeline ::
      if date in timeline[s] then timeline[s][date := timeline[s][date] + Get(amount, s, 0)] else timeline[s]
  }

  function ChargedTotals(t: Totals, amount: map<Id, int>, date: Date): Totals {
    Totals(Charged(t.day, amount), Charged(t.week, amount), Charged(t.month, amount), Charged(t.grand, amount),
           ChargedTimeline(t.timeline, amount, date))
  }

  function AtLeastEpsilon(x: real): real {
    if x > 0.000001 then x else 0.000001
  }

  /** The speed over the whole window, given the speed over what of it was known before. */
  function NewBps(bps: real, last: real, bytes: int, total: real): real
    requires total > 0.0
  {
    (bps * last + bytes as real) / total
  }

  function Zeroed<V>(m: map<Id, V>, zero: V): map<Id, V> {
    map s | s in m :: zero
  }

  /** `reset`. */
  function ResetSpeed(speed: Speed, now: real): Speed {
    Speed(now, now, 0.0, Zeroed(speed.serverBps, 0.0))
  }

  function NewServerBps(bps: map<Id, real>, amount: map<Id, int>, last: real, total: real): map<Id, real>
    requires total > 0.0
  {
    map s | s in bps :: if s in amount then NewBps(bps[s], last, amount[s], total) else bps[s]
  }

  function NewSpeed(speed: Speed, cache: Cache, now: real): Speed {
    var total, last := AtLeastEpsilon(now - speed.start), AtLeastEpsilon(speed.last - speed.start);
    var start := if speed.start < now - 5.0 then now - 5.0 else speed.start;
    Speed(start, now, NewBps(speed.bps, last, cache.sum, total), NewServerBps(speed.serverBps, cache.amount, last, total))
  }

  function ChargedQuota(quota: Quota, bytes: int): Quota {
    if quota.have && quota.enabled then quota.(left := quota.left - bytes as real) else quota
  }

  /** A window that saw next to nothing is started anew; `later` is the clock that `reset` reads. */
  function EndSpeed(speed: Speed, cache: Cache, now: real, later: real): Speed {
    var speed1 := NewSpeed(speed, cache, now);
    if speed1.bps < 0.01 then ResetSpeed(speed1, later) else speed1
  }

  /** `update` without a server, if it does not raise. */
  function Flush(m: Meter, clock: Clock, servers: seq<Id>, later: real): Meter {
    Flushed(Rollover(m, clock, servers), clock.now, later)
  }

  function Flushed(m: Meter, now: real, later: real): Meter {
    Meter(ChargedTotals(m.totals, m.cache.amount, m.ends.date), EndSpeed(m.speed, m.cache, now, later),
          Cache(Zeroed(m.cache.amount, 0), 0), m.ends, ChargedQuota(m.quota, m.cache.sum))
  }

  function Without(t: Totals, s: Id): Totals {
    Totals(t.day - {s}, t.week - {s}, t.month - {s}, t.grand - {s}, t.timeline - {s})
  }

  /** `clear_server`; bytes that are cached stay cached. */
  function ClearServer(m: Meter, s: Id): Meter {
    InitServer(m.(totals := Without(m.totals, s)), s)
  }

  /** `reset_quota`, when it is time. */
  function ResetQuota(quota: Quota, size: real): Quota {
    quota.(size := size, left := size)
  }

  /** `change_quota` up to its flush; `usage` is the total of the quota's period, if it has one, and `have` whether a
      size is configured. */
  function ChangeQuota(quota: Quota, have: bool, size: real, usage: int, hasPeriod: bool): Quota {
    var left := if !quota.have && quota.size < 0.5 && hasPeriod then usage as real else quota.left;
    if !have then quota.(size := 0.0, left := 0.0, have := false)
    else if quota.size != 0.0 then quota.(size := size, left := size - (quota.size - left), have := true)
    else quota.(size := size, left := size - left, have := true)
  }

  // ------------------------------------------------------------------------------------------------- sums over maps

  ghost function Sum<K>(m: map<K, int>): int
    decreases |m|
  {
    if m == map[] then 0 else var k :| k in m; m[k] + Sum(m - {k})
  }

  ghost function SumReal<K>(m: map<K, real>): real
    decreases |m|
  {
    if m == map[] then 0.0 else var k :| k in m; m[k] + SumReal(m - {k})
  }

  lemma {:induction false} SumAt<K>(m: map<K, int>, k: K)
    requires k in m
    ensures Sum(m) == m[k] + Sum(m - {k})
    decreases |m|
  {
    var j :| j in m && Sum(m) == m[j] + Sum(m - {j});
    if j != k {
      SumAt(m - {j}, k);
      SumAt(m - {k}, j);
      assert m - {j} - {k} == m - {k} - {j};
    }
  }

  lemma {:induction false} SumRealAt<K>(m: map<K, real>, k: K)
    requires k in m
    ensures SumReal(m) == m[k] + SumReal(m - {k})
    decreases |m|
  {
    var j :| j in m && SumReal(m) == m[j] + SumReal(m - {j});
    if j != k {
      SumRealAt(m - {j}, k);
      SumRealAt(m - {k}, j);
      assert m - {j} - {k} == m - {k} - {j};
    }
  }

  lemma SumPut<K>(m: map<K, int>, k: K, v: int)
    ensures Sum(m[k := v]) == Sum(m) - Get(m, k, 0) + v
  {
    SumAt(m[k := v], k);
    assert m[k := v] - {k} == m - {k};
    if k in m {
      SumAt(m, k);
    } else {
      assert m - {k} == m;
    }
  }

  lemma SumRealPut<K>(m: map<K, real>, k: K, v: real)
    ensures SumReal(m[k := v]) == SumReal(m) - Get(m, k, 0.0) + v
  {
    SumRealAt(m[k := v], k);
    assert m[k := v] - {k} == m - {k};
    if k in m {
      SumRealAt(m, k);
    } else {
      assert m - {k} == m;
    }
  }

  lemma {:induction false} SumZero<K>(m: map<K, int>)
    requires forall k :: k in m ==> m[k] == 0
    ensures Sum(m) == 0
    decreases |m|
  {
    if |m| != 0 {
      var k :| k in m;
      SumAt(m, k);
      SumZero(m - {k});
    }
  }

  lemma {:induction false} SumRealZero<K>(m: map<K, real>)
    requires forall k :: k in m ==> m[k] == 0.0
    ensures SumReal(m) == 0.0
    decreases |m|
  {
    if |m| != 0 {
      var k :| k in m;
      SumRealAt(m, k);
      SumRealZero(m - {k});
    }
  }

  ghost predicate Additive(f: (real, int) -> real) {
    f(0.0, 0) == 0.0 && forall x, a, y, b :: AddsAt(f, x, a, y, b)
  }

  predicate AddsAt(f: (real, int) -> real, x: real, a: int, y: real, b: int) {
    f(x, a) + f(y, b) == f(x + y, a + b)
  }

  function MapBoth(f: (real, int) -> real, x: map<Id, real>, a: map<Id, int>): map<Id, real>
    requires x.Keys == a.Keys
  {
    map s | s in x :: f(x[s], a[s])
  }

  /** An additive function of every server's values adds up to the function of the sums. */
  lemma {:induction false} AdditiveSums(f: (real, int) -> real, x: map<Id, real>, a: map<Id, int>)
    requires Additive(f) && x.Keys == a.Keys
    ensures SumReal(MapBoth(f, x, a)) == f(SumReal(x), Sum(a))
    decreases |x|
  {
    var both := MapBoth(f, x, a);
    if x == map[] {
      assert a.Keys == {} && a == map[] && both == map[];
    } else {
      var k :| k in x;
      AdditiveSums(f, x - {k}, a - {k});
      SumRealAt(x, k);
      SumAt(a, k);
      SumRealAt(both, k);
      assert both - {k} == MapBoth(f, x - {k}, a - {k});
      assert AddsAt(f, x[k], a[k], SumReal(x - {k}), Sum(a - {k}));
    }
  }

  lemma NewBpsAdds(x: real, y: real, last: real, a: int, b: int, total: real)
    requires total > 0.0
    ensures NewBps(x, last, a, total) + NewBps(y, last, b, total) == NewBps(x + y, last, a + b, total)
  {
    var p, q := x * last + a as real, y * last + b as real;
    assert (x + y) * last == x * last + y * last;
    assert (a + b) as real == a as real + b as real;
    assert p / total + q / total == (p + q) / total;
  }

  function NewBpsOver(last: real, total: real): (real, int) -> real
    requires total > 0.0
  {
    (bps, bytes) => NewBps(bps, last, bytes, total)
  }

  lemma NewBpsAdditive(last: real, total: real)
    requires total > 0.0
    ensures Additive(NewBpsOver(last, total))
  {
    var f := NewBpsOver(last, total);
    forall x, a, y, b ensures AddsAt(f, x, a, y, b) {
      NewBpsAdds(x, y, last, a, b, total);
    }
  }

  /** The new speeds of the servers add up to the new speed of their sum. */
  lemma NewBpsSums(bps: map<Id, real>, amount: map<Id, int>, last: real, total: real)
    requires total > 0.0 && bps.Keys == amount.Keys
    ensures SumReal(MapBoth(NewBpsOver(last, total), bps, amount)) == NewBps(SumReal(bps), last, Sum(amount), total)
  {
    NewBpsAdditive(last, total);
    AdditiveSums(NewBpsOver(last, total), bps, amount);
  }
}
