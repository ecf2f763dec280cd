/**
 Restarts and timers of servers, as functions on values: `init_server`, the penalty timers, and the removal of a
 restarting server in the main loop.
 */
module Restarts {
  import opened Options

  /** Server ids are only ever compared. */
  type Id = int

  /** What the downloader keeps of a server here; `rank` is the key by which the list is sorted. */
  datatype Entry = Entry(id: Id, rank: nat, active: bool, restart: bool, newId: Option<Id>)

  /** The configured servers that are enabled and complete, with their rank. */
  type Config = map<Id, nat>

  /** `surplus` counts the restarts asked for while one was already pending; the program does not store it. */
  datatype State = State(servers: seq<Entry>, timers: map<Id, seq<int>>, restarts: int, surplus: nat)

  // ------------------------------------------------------------------------------------------------ the operations

  /** The first server with this id, or the length of the list. */
  function Find(servers: seq<Entry>, id: Id): (k: nat)
    ensures k <= |servers|
    ensures k < |servers| ==> servers[k].id == id
    ensures forall j :: 0 <= j < k ==> servers[j].id != id
  {
    if servers == [] || servers[0].id == id then 0 else 1 + Find(servers[1..], id)
  }

  /** The place that `append` and `sort` give a new server in a sorted list. */
  function Spot(servers: seq<Entry>, rank: nat): (k: nat)
    ensures k <= |servers|
  {
    if servers == [] then 0
    else if servers[|servers| - 1].rank > rank then Spot(servers[..|servers| - 1], rank)
    else |servers|
  }

  function Insert(servers: seq<Entry>, e: Entry): seq<Entry> {
    servers[..Spot(servers, e.rank)] + [e] + servers[Spot(servers, e.rank)..]
  }

  function NewEntry(id: Id, rank: nat): Entry {
    Entry(id, rank, true, false, None)
  }

  /** `init_server`. */
  function InitServer(st: State, oldId: Option<Id>, newId: Option<Id>, config: Config): State {
    var k := if oldId.Some? then Find(st.servers, oldId.value) else |st.servers|;
    if k < |st.servers| then
      var e := st.servers[k];
      st.(servers := st.servers[k := e.(restart := true, newId := newId)], restarts := st.restarts + 1,
          surplus := if e.restart then st.surplus + 1 else st.surplus)
    else if newId.Some? && newId.value in config then
      st.(servers := Insert(st.servers, NewEntry(newId.value, config[newId.value])))
    else st
  }

  function ClearTimers(st: State, id: Id): State {
    st.(timers := st.timers - {id})
  }

  /** `plan_server`. */
  function PlanServer(st: State, id: Id, stamp: int): State {
    st.(timers := st.timers[id := (if id in st.timers then st.timers[id] else []) + [stamp]])
  }

  /** `trigger_server`. */
  function TriggerServer(st: State, id: Id, stamp: int, config: Config): State {
    if id in st.timers && stamp in st.timers[id] then InitServer(ClearTimers(st, id), Some(id), Some(id), config)
    else st
  }

  predicate AnyIdle(servers: seq<Entry>, id: Id) {
    exists i :: 0 <= i < |servers| && servers[i].id == id && !servers[i].active
  }

  /** `unblock`. */
  function Unblock(st: State, id: Id, config: Config): State {
    var st1 := ClearTimers(st, id);
    if AnyIdle(st1.servers, id) then InitServer(st1, Some(id), Some(id), config) else st1
  }

  /** A stamp that has not passed. */
  predicate Unexpired(timers: map<Id, seq<int>>, id: Id, now: int) {
    id in timers && exists i :: 0 <= i < |timers[id]| && timers[id][i] >= now
  }

  /** One turn of the first loop of `check_timers`. */
  function KickOne(st: State, id: Id, now: int, config: Config): State {
    if Unexpired(st.timers, id, now) then st
    else InitServer(ClearTimers(st, id), Some(id), Some(id), config)
  }

  /** The first loop of `check_timers`, over the ids that have timers; it leaves the ids it kicked. */
  function KickExpired(st: State, ids: seq<Id>, now: int, config: Config): (State, set<Id>)
    decreases |ids|
  {
    if ids == [] then (st, {})
    else
      var (last, kicked) := KickExpired(KickOne(st, ids[0], now, config), ids[1..], now, config);
      (last, if Unexpired(st.timers, ids[0], now) then kicked else kicked + {ids[0]})
  }

  lemma KickFrom(st: State, ids: seq<Id>, i: nat, now: int, config: Config)
    requires i < |ids|
    ensures var (last, kicked) := KickExpired(KickOne(st, ids[i], now, config), ids[i + 1..], now, config);
      KickExpired(st, ids[i..], now, config)
      == (last, if Unexpired(st.timers, ids[i], now) then kicked else kicked + {ids[i]})
  {
    assert ids[i..][1..] == ids[i + 1..];
  }

  /** The second loop, over the servers from index i. */
  function ForceIdle(st: State, i: nat, kicked: set<Id>, config: Config): State
    decreases |st.servers| - i
  {
    if i >= |st.servers| then st
    else
      var e := st.servers[i];
      var st1 := if e.id !in st.timers && e.id !in kicked && !e.active then InitServer(st, Some(e.id), Some(e.id), config) else st;
      assert Find(st.servers, e.id) <= i;
      ForceIdle(st1, i + 1, kicked, config)
  }

  /** `check_timers`. */
  function CheckTimers(st: State, ids: seq<Id>, now: int, config: Config): State {
    var (st1, kicked) := KickExpired(st, ids, now, config);
    ForceIdle(st1, 0, kicked, config)
  }

  /** The part of `run` that removes server i, once it is to restart and none of its connections is busy. */
  function RemoveServer(st: State, i: nat, config: Config): State
    requires i < |st.servers|
  {
    var st1 := st.(servers := st.servers[..i] + st.servers[i + 1..]);
    var st2 := InitServer(st1, None, st.servers[i].newId, config);
    st2.(restarts := st2.restarts - 1)
  }

  /** The guard that the main loop tests before it waits to be notified, given that there is nothing to download. What
      happens while it waits is in `MainLoops`. */
  predicate MayWait(st: State) {
    st.restarts == 0
  }

  // -------------------------------------------------------------------------------- the counter and what is pending

  function Pending(servers: seq<Entry>): nat {
    if servers == [] then 0 else Pending(servers[..|servers| - 1]) + (if servers[|servers| - 1].restart then 1 else 0)
  }

  lemma {:induction false} PendingConcat(a: seq<Entry>, b: seq<Entry>)
    ensures Pending(a + b) == Pending(a) + Pending(b)
  {
    if b == [] {
      assert a + b == a;
    } else {
      assert (a + b)[..|a + b| - 1] == a + b[..|b| - 1];
      PendingConcat(a, b[..|b| - 1]);
    }
  }

  lemma PendingOne(e: Entry)
    ensures Pending([e]) == if e.restart then 1 else 0
  {
    assert [e][..0] == [];
  }

  lemma PendingAt(servers: seq<Entry>, k: nat)
    requires k < |servers|
    ensures Pending(servers) == Pending(servers[..k]) + (if servers[k].restart then 1 else 0) + Pending(servers[k + 1..])
  {
    assert servers[..k + 1] + servers[k + 1..] == servers;
    PendingConcat(servers[..k + 1], servers[k + 1..]);
    assert servers[..k + 1][..k] == servers[..k];
  }

  lemma {:induction false} PendingSome(servers: seq<Entry>, k: nat)
    requires k < |servers| && servers[k].restart
    ensures Pending(servers) > 0
  {
    PendingAt(servers, k);
  }

  /** The counter is the number of pending restarts plus the surplus. */
  predicate CounterExact(st: State) {
    st.restarts == Pending(st.servers) + st.surplus
  }

  lemma InitCounts(st: State, oldId: Option<Id>, newId: Option<Id>, config: Config)
    requires CounterExact(st)
    ensures CounterExact(InitServer(st, oldId, newId, config))
    ensures InitServer(st, oldId, newId, config).surplus >= st.surplus
  {
    var k := if oldId.Some? then Find(st.servers, oldId.value) else |st.servers|;
    if k < |st.servers| {
      var servers1 := InitServer(st, oldId, newId, config).servers;
      PendingAt(st.servers, k);
      PendingAt(servers1, k);
      assert servers1[..k] == st.servers[..k] && servers1[k + 1..] == st.servers[k + 1..];
    } else if newId.Some? && newId.value in config {
      var e := NewEntry(newId.value, config[newId.value]);
      var spot := Spot(st.servers, e.rank);
      assert st.servers == st.servers[..spot] + st.servers[spot..];
      PendingConcat(st.servers[..spot], st.servers[spot..]);
      PendingConcat(st.servers[..spot] + [e], st.servers[spot..]);
      PendingConcat(st.servers[..spot], [e]);
      PendingOne(e);
    }
  }

  lemma KickOneCounts(st: State, id: Id, now: int, config: Config)
    requires CounterExact(st)
    ensures CounterExact(KickOne(st, id, now, config)) && KickOne(st, id, now, config).surplus >= st.surplus
  {
    InitCounts(ClearTimers(st, id), Some(id), Some(id), config);
  }

  lemma {:induction false} KickCounts(st: State, ids: seq<Id>, now: int, config: Config)
    requires CounterExact(st)
    ensures CounterExact(KickExpired(st, ids, now, config).0) && KickExpired(st, ids, now, config).0.surplus >= st.surplus
    decreases |ids|
  {
    if ids != [] {
      KickOneCounts(st, ids[0], now, config);
      KickCounts(KickOne(st, ids[0], now, config), ids[1..], now, config);
    }
  }

  lemma {:induction false} ForceCounts(st: State, i: nat, kicked: set<Id>, config: Config)
    requires CounterExact(st)
    ensures CounterExact(ForceIdle(st, i, kicked, config)) && ForceIdle(st, i, kicked, config).surplus >= st.surplus
    decreases |st.servers| - i
  {
    if i < |st.servers| {
      var e := st.servers[i];
      InitCounts(st, Some(e.id), Some(e.id), config);
      var st1 := if e.id !in st.timers && e.id !in kicked && !e.active then InitServer(st, Some(e.id), Some(e.id), config) else st;
      assert Find(st.servers, e.id) <= i;
      ForceCounts(st1, i + 1, kicked, config);
    }
  }

  lemma RemoveCounts(st: State, i: nat, config: Config)
    requires CounterExact(st) && i < |st.servers| && st.servers[i].restart
    ensures CounterExact(RemoveServer(st, i, config)) && RemoveServer(st, i, config).surplus >= st.surplus
  {
    PendingAt(st.servers, i);
    PendingConcat(st.servers[..i], st.servers[i + 1..]);
    var st1 := st.(servers := st.servers[..i] + st.servers[i + 1..], restarts := st.restarts - 1);
    InitCounts(st1, None, st.servers[i].newId, config);
  }

  /** What the other threads and the main loop do, in any order. */
  datatype Step =
    | Init(oldId: Option<Id>, newId: Option<Id>)
    | Plan(id: Id, stamp: int)
    | Trigger(id: Id, stamp: int)
    | Unblocked(id: Id)
    | Check(ids: seq<Id>, now: int)
    | Deactivate(i: nat)
    | Remove(i: nat)

  predicate Enabled(st: State, step: Step) {
    (step.Deactivate? ==> step.i < |st.servers|) && (step.Remove? ==> step.i < |st.servers| && st.servers[step.i].restart)
  }

  function Next(st: State, step: Step, config: Config): State
    requires Enabled(st, step)
  {
    match step
    case Init(oldId, newId) => InitServer(st, oldId, newId, config)
    case Plan(id, stamp) => PlanServer(st, id, stamp)
    case Trigger(id, stamp) => TriggerServer(st, id, stamp, config)
    case Unblocked(id) => Unblock(st, id, config)
    case Check(ids, now) => CheckTimers(st, ids, now, config)
    case Deactivate(i) => st.(servers := st.servers[i := st.servers[i].(active := false)])
    case Remove(i) => RemoveServer(st, i, config)
  }

  /** The configuration can be another one at every step. */
  ghost predicate Run(first: State, steps: seq<(Step, Config)>, last: State)
    decreases |steps|
  {
    if steps == [] then last == first
    else Enabled(first, steps[0].0) && Run(Next(first, steps[0].0, steps[0].1), steps[1..], last)
  }

  lemma NextCounts(st: State, step: Step, config: Config)
    requires CounterExact(st) && Enabled(st, step)
    ensures CounterExact(Next(st, step, config)) && Next(st, step, config).surplus >= st.surplus
  {
    match step
    case Init(oldId, newId) => InitCounts(st, oldId, newId, config);
    case Plan(_, _) =>
    case Trigger(id, _) => InitCounts(ClearTimers(st, id), Some(id), Some(id), config);
    case Unblocked(id) => InitCounts(ClearTimers(st, id), Some(id), Some(id), config);
    case Check(ids, now) =>
      KickCounts(st, ids, now, config);
      var (st1, kicked) := KickExpired(st, ids, now, config);
      ForceCounts(st1, 0, kicked, config);
    case Deactivate(i) =>
      var servers1 := st.servers[i := st.servers[i].(active := false)];
      PendingAt(st.servers, i);
      PendingAt(servers1, i);
      assert servers1[..i] == st.servers[..i] && servers1[i + 1..] == st.servers[i + 1..];
    case Remove(i) => RemoveCounts(st, i, config);
  }

  lemma {:induction false} RunCounts(first: State, steps: seq<(Step, Config)>, last: State)
    requires CounterExact(first) && Run(first, steps, last)
    ensures CounterExact(last) && last.surplus >= first.surplus
    decreases |steps|
  {
    if steps != [] {
      NextCounts(first, steps[0].0, steps[0].1);
      RunCounts(Next(first, steps[0].0, steps[0].1), steps[1..], last);
    }
  }

  function Start(): State {
    State([], map[], 0, 0)
  }

  ghost predicate Reachable(st: State) {
    exists steps :: Run(Start(), steps, st)
  }

  lemma ReachableCounts(st: State)
    requires Reachable(st)
    ensures CounterExact(st)
  {
    var steps :| Run(Start(), steps, st);
    RunCounts(Start(), steps, st);
  }

  /** On every run the counter is at least the number of servers with a pending restart, so the main loop does not begin
      to wait while one is pending. */
  lemma NoWaitWhilePending(st: State)
    requires Reachable(st)
    ensures st.restarts >= Pending(st.servers)
    ensures MayWait(st) ==> forall k :: 0 <= k < |st.servers| ==> !st.servers[k].restart
  {
    ReachableCounts(st);
    forall k | 0 <= k < |st.servers| && st.servers[k].restart ensures st.restarts > 0 {
      PendingSome(st.servers, k);
    }
  }

  /** It may begin to wait exactly when nothing is pending and no restart was ever asked for twice: a second request for a
      pending restart is counted and never taken back. */
  lemma MayWaitExactly(st: State)
    requires Reachable(st)
    ensures MayWait(st) <==> Pending(st.servers) == 0 && st.surplus == 0
  {
    ReachableCounts(st);
  }

  lemma NeverWaitsAgain(first: State, steps: seq<(Step, Config)>, last: State)
    requires Reachable(first) && first.surplus > 0 && Run(first, steps, last)
    ensures !MayWait(last)
  {
    ReachableCounts(first);
    RunCounts(first, steps, last);
  }

  /** Two requests for one server, and its removal: nothing is pending and the counter is one. */
  lemma AskedTwice()
    ensures exists st :: Reachable(st) && Pending(st.servers) == 0 && st.restarts == 1
  {
    var config: Config, id := map[1 := 0], Some(1);
    var create: (Step, Config), ask: (Step, Config), remove: (Step, Config) := (Init(None, id), config), (Init(id, id), config), (Remove(0), config);
    var steps := [create, ask, ask, remove];
    var st1 := Next(Start(), create.0, config);
    assert st1.servers == [NewEntry(1, 0)];
    var st2 := Next(st1, ask.0, config);
    var st3 := Next(st2, ask.0, config);
    var st4 := Next(st3, remove.0, config);
    assert Spot([], 0) == 0;
    assert st4.servers == [NewEntry(1, 0)] && st4.restarts == 1;
    assert Run(st4, steps[4..], st4);
    assert steps[3..][1..] == steps[4..] && Run(st3, steps[3..], st4);
    assert steps[2..][1..] == steps[3..] && Run(st2, steps[2..], st4);
    assert steps[1..][1..] == steps[2..] && Run(st1, steps[1..], st4);
    assert Run(Start(), steps, st4) && Reachable(st4);
    assert st4.servers[..0] == [];
  }

  // --------------------------------------------------------------------------------------- nobody is forgotten

  /** Active, about to restart, or planned for a moment that has not passed. */
  predicate Awaited(st: State, now: int, i: nat)
    requires i < |st.servers|
  {
    var e := st.servers[i];
    e.active || e.restart || (e.id in st.timers && exists j :: 0 <= j < |st.timers[e.id]| && st.timers[e.id][j] >= now)
  }

  predicate AllAwaited(st: State, now: int) {
    forall i :: 0 <= i < |st.servers| ==> Awaited(st, now, i)
  }

  /** Every server that is none of these is at least the first with its id. */
  predicate ForgottenAreFirst(st: State, now: int) {
    forall i :: 0 <= i < |st.servers| ==> Awaited(st, now, i) || Find(st.servers, st.servers[i].id) == i
  }

  predicate UniqueIds(servers: seq<Entry>) {
    forall i, j :: 0 <= i < j < |servers| ==> servers[i].id != servers[j].id
  }

  /** The first server with this id is active or about to restart. */
  predicate FirstIsFine(servers: seq<Entry>, id: Id) {
    var k := Find(servers, id);
    k < |servers| ==> servers[k].active || servers[k].restart
  }

  /** The index a server has after another one was inserted at `spot`. */
  function Shifted(i: nat, spot: nat): nat {
    if i < spot then i else i + 1
  }

  lemma InsertedAt(servers: seq<Entry>, e: Entry)
    ensures var spot, inserted := Spot(servers, e.rank), Insert(servers, e);
      && |inserted| == |servers| + 1 && inserted[spot] == e
      && forall i :: 0 <= i < |servers| ==> inserted[Shifted(i, spot)] == servers[i]
  {
  }

  /** Where a server is found after another one was inserted. */
  lemma FindInserted(servers: seq<Entry>, e: Entry, id: Id)
    requires Find(servers, e.id) == |servers|
    ensures var spot := Spot(servers, e.rank);
      Find(Insert(servers, e), id) == if id == e.id then spot else Shifted(Find(servers, id), spot)
  {
    var spot, k, inserted := Spot(servers, e.rank), Find(servers, id), Insert(servers, e);
    InsertedAt(servers, e);
    FirstIs(inserted, id, if id == e.id then spot else Shifted(k, spot)) by {
      var m := if id == e.id then spot else Shifted(k, spot);
      forall j | 0 <= j < m ensures inserted[j].id != id {
        if j != spot {
          assert inserted[j] == servers[if j < spot then j else j - 1];
        }
      }
    }
  }

  /** `Find` is the only index with its property. */
  lemma FirstIs(servers: seq<Entry>, id: Id, k: nat)
    requires k <= |servers| && (k < |servers| ==> servers[k].id == id) && forall j :: 0 <= j < k ==> servers[j].id != id
    ensures Find(servers, id) == k
  {
  }

  /** Marking the first server with an id changes no id. */
  lemma FindMarked(servers: seq<Entry>, k: nat, e: Entry, id: Id)
    requires k < |servers| && e.id == servers[k].id
    ensures Find(servers[k := e], id) == Find(servers, id)
  {
    var x, y := Find(servers, id), Find(servers[k := e], id);
    if x < |servers| {
      assert servers[k := e][x].id == id;
    }
    if y < |servers| {
      assert servers[y].id == id;
    }
  }

  lemma InsertIsFine(servers: seq<Entry>, e: Entry, other: Id)
    requires Find(servers, e.id) == |servers| && e.active
    ensures FirstIsFine(Insert(servers, e), e.id)
    ensures FirstIsFine(servers, other) ==> FirstIsFine(Insert(servers, e), other)
  {
    InsertedAt(servers, e);
    FindInserted(servers, e, e.id);
    FindInserted(servers, e, other);
  }

  lemma MarkIsFine(servers: seq<Entry>, k: nat, e: Entry, other: Id)
    requires k < |servers| && e.id == servers[k].id && Find(servers, e.id) == k && e.restart
    ensures FirstIsFine(servers[k := e], e.id)
    ensures FirstIsFine(servers, other) ==> FirstIsFine(servers[k := e], other)
  {
    FindMarked(servers, k, e, e.id);
    FindMarked(servers, k, e, other);
  }

  /** `init_server` for an id makes its first server fine, and keeps the others that are. */
  lemma InitIsFine(st: State, id: Id, config: Config, other: Id)
    ensures FirstIsFine(InitServer(st, Some(id), Some(id), config).servers, id)
    ensures FirstIsFine(st.servers, other) ==> FirstIsFine(InitServer(st, Some(id), Some(id), config).servers, other)
  {
    var k := Find(st.servers, id);
    if k < |st.servers| {
      MarkIsFine(st.servers, k, st.servers[k].(restart := true, newId := Some(id)), other);
    } else if id in config {
      InsertIsFine(st.servers, NewEntry(id, config[id]), other);
    }
  }

  /** `init_server` for an id forgets and remembers no server but the first with that id. */
  lemma InitForgets(st: State, id: Id, config: Config, now: int)
    ensures ForgottenAreFirst(InitServer(st, Some(id), Some(id), config), now) <==> ForgottenAreFirst(st, now)
  {
    var k, st1 := Find(st.servers, id), InitServer(st, Some(id), Some(id), config);
    if k < |st.servers| {
      forall i | 0 <= i < |st.servers|
        ensures (Awaited(st1, now, i) || Find(st1.servers, st1.servers[i].id) == i)
                <==> (Awaited(st, now, i) || Find(st.servers, st.servers[i].id) == i)
      {
        FindMarked(st.servers, k, st1.servers[k], st.servers[i].id);
      }
    } else if id in config {
      InsertForgets(st, id, config, now);
    }
  }

  /** A server that was there before is awaited, or the first of its id, as it was. */
  lemma InsertForgetsOne(st: State, id: Id, config: Config, now: int, i: nat)
    requires Find(st.servers, id) == |st.servers| && id in config && i < |st.servers|
    ensures var st1 := InitServer(st, Some(id), Some(id), config);
      var i1 := Shifted(i, Spot(st.servers, config[id]));
      i1 < |st1.servers| && st1.servers[i1] == st.servers[i] && (Awaited(st1, now, i1) <==> Awaited(st, now, i))
      && (Find(st1.servers, st1.servers[i1].id) == i1 <==> Find(st.servers, st.servers[i].id) == i)
  {
    InsertedAt(st.servers, NewEntry(id, config[id]));
    FindInserted(st.servers, NewEntry(id, config[id]), st.servers[i].id);
  }

  lemma InsertForgets(st: State, id: Id, config: Config, now: int)
    requires Find(st.servers, id) == |st.servers| && id in config
    ensures ForgottenAreFirst(InitServer(st, Some(id), Some(id), config), now) <==> ForgottenAreFirst(st, now)
  {
    var st1, spot := InitServer(st, Some(id), Some(id), config), Spot(st.servers, config[id]);
    InsertedAt(st.servers, NewEntry(id, config[id]));
    if ForgottenAreFirst(st, now) {
      forall m | 0 <= m < |st1.servers| ensures Awaited(st1, now, m) || Find(st1.servers, st1.servers[m].id) == m {
        if m != spot {
          InsertForgetsOne(st, id, config, now, if m < spot then m else m - 1);
        }
      }
    }
    if ForgottenAreFirst(st1, now) {
      forall i | 0 <= i < |st.servers| ensures Awaited(st, now, i) || Find(st.servers, st.servers[i].id) == i {
        InsertForgetsOne(st, id, config, now, i);
      }
    }
  }

  /** Dropping timers that have all passed. */
  lemma DropForgets(st: State, id: Id, now: int)
    requires !Unexpired(st.timers, id, now)
    ensures ForgottenAreFirst(ClearTimers(st, id), now) <==> ForgottenAreFirst(st, now)
  {
    var st1 := ClearTimers(st, id);
    assert forall i :: 0 <= i < |st.servers| ==> (Awaited(st1, now, i) <==> Awaited(st, now, i));
  }

  lemma KickOneLeaves(st: State, id: Id, now: int, config: Config)
    ensures var st1 := KickOne(st, id, now, config);
      && (forall d :: d in st1.timers ==> d in st.timers && st1.timers[d] == st.timers[d])
      && (id in st1.timers ==> Unexpired(st1.timers, id, now))
      && (forall d :: FirstIsFine(st.servers, d) ==> FirstIsFine(st1.servers, d))
      && (Unexpired(st.timers, id, now) || FirstIsFine(st1.servers, id))
      && (ForgottenAreFirst(st1, now) <==> ForgottenAreFirst(st, now))
  {
    if !Unexpired(st.timers, id, now) {
      var st1 := ClearTimers(st, id);
      DropForgets(st, id, now);
      InitForgets(st1, id, config, now);
      forall d ensures FirstIsFine(KickOne(st, id, now, config).servers, id)
                       && (FirstIsFine(st.servers, d) ==> FirstIsFine(KickOne(st, id, now, config).servers, d)) {
        InitIsFine(st1, id, config, d);
      }
    }
  }

  /** After the first loop, only timers that have not passed are left, and what was kicked is fine. */
  lemma {:induction false} KickLeaves(st: State, ids: seq<Id>, now: int, config: Config)
    requires forall id :: id in st.timers ==> id in ids || Unexpired(st.timers, id, now)
    ensures var (last, kicked) := KickExpired(st, ids, now, config);
      && (forall id :: id in last.timers ==> Unexpired(last.timers, id, now))
      && (forall id :: id in kicked || FirstIsFine(st.servers, id) ==> FirstIsFine(last.servers, id))
      && (ForgottenAreFirst(last, now) <==> ForgottenAreFirst(st, now))
    decreases |ids|
  {
    if ids != [] {
      var id, st1 := ids[0], KickOne(st, ids[0], now, config);
      KickOneLeaves(st, id, now, config);
      assert forall d :: d in ids ==> d == id || d in ids[1..];
      forall d | d in st1.timers ensures d in ids[1..] || Unexpired(st1.timers, d, now) {
        assert d in ids || Unexpired(st.timers, d, now);
      }
      KickLeaves(st1, ids[1..], now, config);
    }
  }

  /** One turn of the second loop. */
  function ForceOne(st: State, i: nat, kicked: set<Id>, config: Config): State
    requires i < |st.servers|
  {
    var e := st.servers[i];
    if e.id !in st.timers && e.id !in kicked && !e.active then InitServer(st, Some(e.id), Some(e.id), config) else st
  }

  lemma ForceMore(st: State, i: nat, kicked: set<Id>, config: Config)
    requires i < |st.servers|
    ensures |ForceOne(st, i, kicked, config).servers| == |st.servers|
    ensures ForceIdle(st, i, kicked, config) == ForceIdle(ForceOne(st, i, kicked, config), i + 1, kicked, config)
  {
    assert Find(st.servers, st.servers[i].id) <= i;
  }

  lemma ForceOneLeaves(st: State, i: nat, kicked: set<Id>, config: Config, now: int)
    requires i < |st.servers|
    ensures var st1, id := ForceOne(st, i, kicked, config), st.servers[i].id;
      && st1.timers == st.timers && |st1.servers| == |st.servers|
      && (forall d :: FirstIsFine(st.servers, d) ==> FirstIsFine(st1.servers, d))
      && (forall d :: Find(st1.servers, d) == Find(st.servers, d))
      && (id !in st.timers && id !in kicked && Find(st.servers, id) == i ==> FirstIsFine(st1.servers, id))
      && (ForgottenAreFirst(st1, now) <==> ForgottenAreFirst(st, now))
  {
    var e := st.servers[i];
    var k := Find(st.servers, e.id);
    assert k <= i;
    InitForgets(st, e.id, config, now);
    forall d ensures FirstIsFine(InitServer(st, Some(e.id), Some(e.id), config).servers, e.id)
                     && (FirstIsFine(st.servers, d) ==> FirstIsFine(InitServer(st, Some(e.id), Some(e.id), config).servers, d)) {
      InitIsFine(st, e.id, config, d);
    }
    forall d ensures Find(st.servers[k := st.servers[k].(restart := true, newId := Some(e.id))], d) == Find(st.servers, d) {
      FindMarked(st.servers, k, st.servers[k].(restart := true, newId := Some(e.id)), d);
    }
  }

  /** The second loop makes every first server fine that has no timer and was not kicked. */
  lemma {:induction false} ForceLeaves(st: State, i: nat, kicked: set<Id>, config: Config, now: int)
    ensures var last := ForceIdle(st, i, kicked, config);
      && last.timers == st.timers
      && (forall id :: FirstIsFine(st.servers, id) ==> FirstIsFine(last.servers, id))
      && (forall id :: id !in st.timers && id !in kicked && i <= Find(st.servers, id) ==> FirstIsFine(last.servers, id))
      && (ForgottenAreFirst(last, now) <==> ForgottenAreFirst(st, now))
    decreases |st.servers| - i
  {
    if i < |st.servers| {
      var st1 := ForceOne(st, i, kicked, config);
      ForceOneLeaves(st, i, kicked, config, now);
      ForceLeaves(st1, i + 1, kicked, config, now);
      forall id | id !in st.timers && id !in kicked && Find(st.servers, id) == i ensures FirstIsFine(st1.servers, id) {
        assert id == st.servers[i].id;
      }
    }
  }

  /** After `check_timers` every server is active, about to restart, or has a timer that has not passed, exactly when
      before the call every server for which this did not hold was the first one with its id. */
  lemma CheckTimersAwaits(st: State, ids: seq<Id>, now: int, config: Config)
    requires forall id :: id in st.timers ==> id in ids
    ensures AllAwaited(CheckTimers(st, ids, now, config), now) <==> ForgottenAreFirst(st, now)
  {
    KickLeaves(st, ids, now, config);
    var (st1, kicked) := KickExpired(st, ids, now, config);
    ForceLeaves(st1, 0, kicked, config, now);
    var last := ForceIdle(st1, 0, kicked, config);
    assert AllAwaited(last, now) ==> ForgottenAreFirst(last, now);
    if ForgottenAreFirst(last, now) {
      forall i | 0 <= i < |last.servers| ensures Awaited(last, now, i) {
        var id := last.servers[i].id;
        if id !in last.timers {
          assert FirstIsFine(last.servers, id);
        }
      }
    }
  }

  /** With unique ids no server is ever forgotten. */
  lemma UniqueIdsAreAwaited(st: State, ids: seq<Id>, now: int, config: Config)
    requires UniqueIds(st.servers) && forall id :: id in st.timers ==> id in ids
    ensures AllAwaited(CheckTimers(st, ids, now, config), now)
  {
    CheckTimersAwaits(st, ids, now, config);
    forall i | 0 <= i < |st.servers| ensures Find(st.servers, st.servers[i].id) == i {
    }
  }

  lemma {:induction false} RunOn(first: State, steps: seq<(Step, Config)>, st: State, step: Step, config: Config)
    requires Run(first, steps, st) && Enabled(st, step)
    ensures Run(first, steps + [(step, config)], Next(st, step, config))
    decreases |steps|
  {
    var all := steps + [(step, config)];
    if steps == [] {
      assert all[1..] == [];
    } else {
      RunOn(Next(first, steps[0].0, steps[0].1), steps[1..], st, step, config);
      assert all[1..] == steps[1..] + [(step, config)];
    }
  }

  lemma ReachesNext(st: State, step: Step, config: Config)
    requires Reachable(st) && Enabled(st, step)
    ensures Reachable(Next(st, step, config))
  {
    var steps :| Run(Start(), steps, st);
    RunOn(Start(), steps, st, step, config);
  }

  /** A server is to be renamed to 2 when another one is set up under that id; then the rename goes through. */
  lemma TwoOfOneId(config: Config)
    requires config == map[1 := 0, 2 := 0]
    ensures Reachable(State([NewEntry(2, 0), NewEntry(2, 0)], map[], 0, 0))
  {
    var e1, e2, moving := NewEntry(1, 0), NewEntry(2, 0), Entry(1, 0, true, true, Some(2));
    assert Run(Start(), [], Start());
    ReachesNext(Start(), Init(None, Some(1)), config);
    var st1 := State([e1], map[], 0, 0);
    assert Next(Start(), Init(None, Some(1)), config) == st1;
    ReachesNext(st1, Init(Some(1), Some(2)), config);
    var st2 := State([moving], map[], 1, 0);
    assert Next(st1, Init(Some(1), Some(2)), config).servers == [moving];
    ReachesNext(st2, Init(None, Some(2)), config);
    var st3 := State([moving, e2], map[], 1, 0);
    assert Next(st2, Init(None, Some(2)), config).servers == [moving, e2];
    ReachesNext(st3, Remove(0), config);
    assert st3.servers[..0] + st3.servers[1..] == [e2];
    assert Next(st3, Remove(0), config).servers == [e2, e2];
  }

  /** A run to two servers with one id, each deactivated with a penalty timer: `check_timers`, once both timers have
      passed, clears them and restarts the first server, and then passes over the second, whose id it has just kicked. */
  lemma SecondIsForgotten(stamp: int, now: int)
    requires stamp < now
    ensures exists st: State, config: Config ::
      && Reachable(st) && st.timers == map[2 := [stamp, stamp]] && AllAwaited(st, stamp)
      && !AllAwaited(CheckTimers(st, [2], now, config), now)
  {
    var config: Config, e, idle := map[1 := 0, 2 := 0], NewEntry(2, 0), Entry(2, 0, false, false, None);
    TwoOfOneId(config);
    var st0, st1 := State([e, e], map[], 0, 0), State([idle, e], map[], 0, 0);
    ReachesNext(st0, Deactivate(0), config);
    assert Next(st0, Deactivate(0), config) == st1;
    var st2 := State([idle, e], map[2 := [stamp]], 0, 0);
    ReachesNext(st1, Plan(2, stamp), config);
    assert [] + [stamp] == [stamp] && Next(st1, Plan(2, stamp), config) == st2;
    var st3 := State([idle, idle], map[2 := [stamp]], 0, 0);
    ReachesNext(st2, Deactivate(1), config);
    assert Next(st2, Deactivate(1), config) == st3;
    var st := State([idle, idle], map[2 := [stamp, stamp]], 0, 0);
    ReachesNext(st3, Plan(2, stamp), config);
    assert [stamp] + [stamp] == [stamp, stamp] && Next(st3, Plan(2, stamp), config) == st;
    assert st.timers[2][0] == stamp && Unexpired(st.timers, 2, stamp);
    assert !Awaited(st, now, 1) && Find(st.servers, 2) == 0;
    CheckTimersAwaits(st, [2], now, config);
  }

  lemma InsertedIs(servers: seq<Entry>, e: Entry, i: nat)
    requires i <= |servers|
    ensures var spot := Spot(servers, e.rank);
      Insert(servers, e)[i] == if i < spot then servers[i] else if i == spot then e else servers[i - 1]
  {
  }

  lemma InsertDistinct(servers: seq<Entry>, e: Entry, i: nat, j: nat)
    requires UniqueIds(servers) && Find(servers, e.id) == |servers| && i < j <= |servers|
    ensures Insert(servers, e)[i].id != Insert(servers, e)[j].id
  {
    InsertedIs(servers, e, i);
    InsertedIs(servers, e, j);
  }

  lemma InsertUnique(servers: seq<Entry>, e: Entry)
    requires UniqueIds(servers)
    ensures UniqueIds(Insert(servers, e)) <==> Find(servers, e.id) == |servers|
  {
    var inserted, spot, m := Insert(servers, e), Spot(servers, e.rank), Find(servers, e.id);
    if m < |servers| {
      InsertedAt(servers, e);
      assert inserted[Shifted(m, spot)].id == inserted[spot].id;
    } else {
      forall i, j | 0 <= i < j < |inserted| ensures inserted[i].id != inserted[j].id {
        InsertDistinct(servers, e, i, j);
      }
    }
  }

  /** `init_server` keeps ids unique exactly unless it creates a server under an id that is in use: a rename to, or a
      removal in favour of, another server's id. */
  lemma InitKeepsUnique(st: State, oldId: Option<Id>, newId: Option<Id>, config: Config)
    requires UniqueIds(st.servers)
    ensures UniqueIds(InitServer(st, oldId, newId, config).servers) <==>
      (oldId.Some? && Find(st.servers, oldId.value) < |st.servers|)
      || newId.None? || newId.value !in config || Find(st.servers, newId.value) == |st.servers|
  {
    var k := if oldId.Some? then Find(st.servers, oldId.value) else |st.servers|;
    if k == |st.servers| && newId.Some? && newId.value in config {
      InsertUnique(st.servers, NewEntry(newId.value, config[newId.value]));
    }
  }

  predicate Sorted(servers: seq<Entry>) {
    forall i, j :: 0 <= i < j < |servers| ==> servers[i].rank <= servers[j].rank
  }

  lemma {:induction false} SpotSplits(servers: seq<Entry>, rank: nat)
    requires Sorted(servers)
    ensures forall i :: 0 <= i < |servers| ==> (i < Spot(servers, rank) <==> servers[i].rank <= rank)
  {
    if servers != [] && servers[|servers| - 1].rank > rank {
      var rest := servers[..|servers| - 1];
      SpotSplits(rest, rank);
      assert forall i :: 0 <= i < |rest| ==> servers[i] == rest[i];
    }
  }

  /** A new server is put where sorting the list puts it: after all that do not rank higher. */
  lemma InsertSorts(servers: seq<Entry>, e: Entry)
    requires Sorted(servers)
    ensures Sorted(Insert(servers, e)) && multiset(Insert(servers, e)) == multiset(servers) + multiset{e}
  {
    SpotSplits(servers, e.rank);
    var spot := Spot(servers, e.rank);
    assert servers == servers[..spot] + servers[spot..];
  }
}
