/**
 What each call asks of the servers, said in terms of ids, flags and stamps: which server a restart is asked of, when a
 timer or `unblock` asks for one, and whom `check_timers` leaves alone.
 */
module Timers {
  import opened Options
  import opened Restarts

  /** The k-th server is the first with this id. */
  predicate IsFirst(servers: seq<Entry>, k: nat, id: Id) {
    k < |servers| && servers[k].id == id && forall j :: 0 <= j < k ==> servers[j].id != id
  }

  predicate Unknown(servers: seq<Entry>, id: Id) {
    forall j :: 0 <= j < |servers| ==> servers[j].id != id
  }

  /** A restart under a new id, or none, was asked of the k-th server, and of no other. */
  predicate Asked(st: State, st1: State, k: nat, newId: Option<Id>) {
    && k < |st.servers| == |st1.servers| && (forall j :: 0 <= j < |st.servers| && j != k ==> st1.servers[j] == st.servers[j])
    && st1.servers[k] == Entry(st.servers[k].id, st.servers[k].rank, st.servers[k].active, true, newId)
    && st1.restarts == st.restarts + 1
  }

  /** A new, active server was put in at this place, and all others are where they were before and behind it. */
  predicate Added(st: State, st1: State, spot: nat, id: Id, rank: nat) {
    && spot <= |st.servers| && |st1.servers| == |st.servers| + 1
    && st1.servers[spot] == Entry(id, rank, true, false, None)
    && (forall j :: 0 <= j < spot ==> st1.servers[j] == st.servers[j])
    && (forall j :: spot <= j < |st.servers| ==> st1.servers[j + 1] == st.servers[j])
    && st1.restarts == st.restarts
  }

  /** `init_server` asks a restart of the first server with the old id; without one it adds a server, if it is configured,
      and otherwise does nothing. No timer is touched. */
  lemma InitExactly(st: State, oldId: Option<Id>, newId: Option<Id>, config: Config, k: nat)
    ensures var st1 := InitServer(st, oldId, newId, config);
      && st1.timers == st.timers
      && (oldId.Some? && IsFirst(st.servers, k, oldId.value) ==> Asked(st, st1, k, newId))
      && ((oldId.None? || Unknown(st.servers, oldId.value)) && newId.Some? && newId.value in config ==>
           exists spot :: Added(st, st1, spot, newId.value, config[newId.value]))
      && ((oldId.None? || Unknown(st.servers, oldId.value)) && (newId.None? || newId.value !in config) ==> st1 == st)
  {
    var st1 := InitServer(st, oldId, newId, config);
    if (oldId.None? || Unknown(st.servers, oldId.value)) && newId.Some? && newId.value in config {
      var spot := Spot(st.servers, config[newId.value]);
      assert Added(st, st1, spot, newId.value, config[newId.value]);
    }
  }

  /** The stamps of all ids but one. */
  predicate OthersKeep(timers: map<Id, seq<int>>, timers1: map<Id, seq<int>>, id: Id) {
    forall d :: d in timers.Keys + timers1.Keys && d != id ==> d in timers && d in timers1 && timers1[d] == timers[d]
  }

  /** A timer that passes asks for a restart exactly if its stamp is still planned, and then none of the id's is any
      more. */
  lemma TriggerExactly(st: State, id: Id, stamp: int, config: Config, k: nat)
    ensures var st1 := TriggerServer(st, id, stamp, config);
      && (!(id in st.timers && stamp in st.timers[id]) ==> st1 == st)
      && (id in st.timers && stamp in st.timers[id] ==>
           id !in st1.timers && OthersKeep(st.timers, st1.timers, id) && (IsFirst(st.servers, k, id) ==> Asked(st, st1, k, Some(id))))
  {
    InitExactly(ClearTimers(st, id), Some(id), Some(id), config, k);
  }

  /** `unblock` takes the timers of the id away, and asks for a restart exactly if some server of this id is inactive. */
  lemma UnblockExactly(st: State, id: Id, config: Config, k: nat)
    ensures var st1 := Unblock(st, id, config);
      && id !in st1.timers && OthersKeep(st.timers, st1.timers, id)
      && ((forall i :: 0 <= i < |st.servers| && st.servers[i].id == id ==> st.servers[i].active) ==>
           st1.servers == st.servers && st1.restarts == st.restarts)
      && ((exists i :: 0 <= i < |st.servers| && st.servers[i].id == id && !st.servers[i].active) && IsFirst(st.servers, k, id) ==>
           Asked(st, st1, k, Some(id)))
  {
    InitExactly(ClearTimers(st, id), Some(id), Some(id), config, k);
  }

  /** Planning adds one stamp to those of the id. */
  lemma PlanExactly(st: State, id: Id, stamp: int)
    ensures var st1 := PlanServer(st, id, stamp);
      && st1.servers == st.servers && st1.restarts == st.restarts && OthersKeep(st.timers, st1.timers, id)
      && id in st1.timers && st1.timers[id] == (if id in st.timers then st.timers[id] + [stamp] else [stamp])
  {
  }

  /** Taking out a restarting server: it is gone, the others stay in order, one is set up under its new id if that is
      configured, and the counter falls by one. */
  lemma RemoveExactly(st: State, i: nat, config: Config)
    requires i < |st.servers|
    ensures var st1, rest, newId := RemoveServer(st, i, config), st.servers[..i] + st.servers[i + 1..], st.servers[i].newId;
      && st1.timers == st.timers && st1.restarts == st.restarts - 1
      && (newId.None? || newId.value !in config ==> st1.servers == rest)
      && (newId.Some? && newId.value in config ==>
           exists spot :: Added(st.(servers := rest), st1.(restarts := st.restarts), spot, newId.value, config[newId.value]))
  {
    var st0 := st.(servers := st.servers[..i] + st.servers[i + 1..]);
    InitExactly(st0, None, st.servers[i].newId, config, 0);
    if st.servers[i].newId.Some? && st.servers[i].newId.value in config {
      var id := st.servers[i].newId.value;
      var spot :| Added(st0, InitServer(st0, None, Some(id), config), spot, id, config[id]);
      assert Added(st0, RemoveServer(st, i, config).(restarts := st.restarts), spot, id, config[id]);
    }
  }

  // ------------------------------------------------------------------------------------------------- check_timers

  /** The id has a stamp that has not passed. */
  predicate Waits(timers: map<Id, seq<int>>, id: Id, now: int) {
    id in timers && exists i :: 0 <= i < |timers[id]| && timers[id][i] >= now
  }

  function FirstOf(servers: seq<Entry>, id: Id): Option<Entry> {
    if Find(servers, id) < |servers| then Some(servers[Find(servers, id)]) else None
  }

  lemma InitSpares(st: State, other: Id, id: Id, config: Config)
    requires other != id
    ensures FirstOf(InitServer(st, Some(other), Some(other), config).servers, id) == FirstOf(st.servers, id)
  {
    var k := Find(st.servers, other);
    if k < |st.servers| {
      FindMarked(st.servers, k, st.servers[k].(restart := true, newId := Some(other)), id);
    } else if other in config {
      var e := NewEntry(other, config[other]);
      FindInserted(st.servers, e, id);
      InsertedAt(st.servers, e);
    }
  }

  /** The first loop does not touch an id that waits. */
  lemma {:induction false} KickSpares(st: State, ids: seq<Id>, now: int, config: Config, id: Id)
    requires Waits(st.timers, id, now)
    ensures var (last, kicked) := KickExpired(st, ids, now, config);
      && FirstOf(last.servers, id) == FirstOf(st.servers, id) && id in last.timers && last.timers[id] == st.timers[id]
    decreases |ids|
  {
    if ids != [] {
      if ids[0] != id {
        InitSpares(ClearTimers(st, ids[0]), ids[0], id, config);
      }
      KickSpares(KickOne(st, ids[0], now, config), ids[1..], now, config, id);
    }
  }

  /** Nor does it touch one that is not among the ids with timers. */
  lemma {:induction false} KickIgnores(st: State, ids: seq<Id>, now: int, config: Config, id: Id)
    requires id !in ids && id !in st.timers
    ensures var (last, kicked) := KickExpired(st, ids, now, config);
      FirstOf(last.servers, id) == FirstOf(st.servers, id) && id !in last.timers && id !in kicked
    decreases |ids|
  {
    if ids != [] {
      assert ids[0] != id;
      InitSpares(ClearTimers(st, ids[0]), ids[0], id, config);
      KickIgnores(KickOne(st, ids[0], now, config), ids[1..], now, config, id);
    }
  }

  /** The second loop does not touch an id with a timer. */
  lemma {:induction false} ForceSpares(st: State, i: nat, kicked: set<Id>, config: Config, id: Id)
    requires id in st.timers
    ensures FirstOf(ForceIdle(st, i, kicked, config).servers, id) == FirstOf(st.servers, id)
    ensures ForceIdle(st, i, kicked, config).timers == st.timers
    decreases |st.servers| - i
  {
    if i < |st.servers| {
      var e := st.servers[i];
      ForceMore(st, i, kicked, config);
      if e.id != id {
        InitSpares(st, e.id, id, config);
      }
      ForceSpares(ForceOne(st, i, kicked, config), i + 1, kicked, config, id);
    }
  }

  /** Nor one of which all servers are active. */
  predicate AllActive(servers: seq<Entry>, id: Id) {
    forall i :: 0 <= i < |servers| && servers[i].id == id ==> servers[i].active
  }

  lemma InitKeepsActive(st: State, other: Id, id: Id, config: Config)
    requires AllActive(st.servers, id)
    ensures AllActive(InitServer(st, Some(other), Some(other), config).servers, id)
  {
    var k := Find(st.servers, other);
    if k == |st.servers| && other in config {
      var e := NewEntry(other, config[other]);
      var spot, inserted := Spot(st.servers, e.rank), Insert(st.servers, e);
      InsertedAt(st.servers, e);
      forall i | 0 <= i < |inserted| && inserted[i].id == id ensures inserted[i].active {
        if i != spot {
          assert inserted[i] == st.servers[if i < spot then i else i - 1];
        }
      }
    }
  }

  lemma {:induction false} ForceSparesActive(st: State, i: nat, kicked: set<Id>, config: Config, id: Id)
    requires AllActive(st.servers, id)
    ensures FirstOf(ForceIdle(st, i, kicked, config).servers, id) == FirstOf(st.servers, id)
    decreases |st.servers| - i
  {
    if i < |st.servers| {
      var e := st.servers[i];
      ForceMore(st, i, kicked, config);
      if e.id != id {
        InitSpares(st, e.id, id, config);
      }
      InitKeepsActive(st, e.id, id, config);
      ForceSparesActive(ForceOne(st, i, kicked, config), i + 1, kicked, config, id);
    }
  }

  lemma {:induction false} KickKeepsActive(st: State, ids: seq<Id>, now: int, config: Config, id: Id)
    requires AllActive(st.servers, id)
    ensures AllActive(KickExpired(st, ids, now, config).0.servers, id)
    decreases |ids|
  {
    if ids != [] {
      InitKeepsActive(ClearTimers(st, ids[0]), ids[0], id, config);
      KickKeepsActive(KickOne(st, ids[0], now, config), ids[1..], now, config, id);
    }
  }

  /** `check_timers` leaves alone what needs nothing: the first server of an id with a stamp that has not passed, and its
      stamps; and that of an id without timers whose servers are all active. */
  lemma CheckTimersSpares(st: State, ids: seq<Id>, now: int, config: Config, id: Id)
    requires forall d :: d in st.timers <==> d in ids
    ensures var last := CheckTimers(st, ids, now, config);
      && ((id in st.timers && exists i :: 0 <= i < |st.timers[id]| && st.timers[id][i] >= now) ==>
           FirstOf(last.servers, id) == FirstOf(st.servers, id) && id in last.timers && last.timers[id] == st.timers[id])
      && (id !in st.timers && (forall i :: 0 <= i < |st.servers| && st.servers[i].id == id ==> st.servers[i].active) ==>
           FirstOf(last.servers, id) == FirstOf(st.servers, id) && id !in last.timers)
  {
    var (st1, kicked) := KickExpired(st, ids, now, config);
    if Waits(st.timers, id, now) {
      KickSpares(st, ids, now, config, id);
      ForceSpares(st1, 0, kicked, config, id);
    } else if id !in st.timers && AllActive(st.servers, id) {
      KickIgnores(st, ids, now, config, id);
      KickKeepsActive(st, ids, now, config, id);
      ForceSparesActive(st1, 0, kicked, config, id);
      ForceKeepsTimers(st1, 0, kicked, config);
    }
  }

  lemma {:induction false} ForceKeepsTimers(st: State, i: nat, kicked: set<Id>, config: Config)
    ensures ForceIdle(st, i, kicked, config).timers == st.timers
    decreases |st.servers| - i
  {
    if i < |st.servers| {
      ForceMore(st, i, kicked, config);
      ForceKeepsTimers(ForceOne(st, i, kicked, config), i + 1, kicked, config);
    }
  }
}
