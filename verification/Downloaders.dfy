/**
 The server list, penalty timers and restart counter of `Downloader`, as the objects the program updates in place. Each
 method is proved to do what its function in `Restarts` says.
 */
module Downloaders {
  import opened Options
  import opened Restarts

  class Server {
    const id: Id
    const rank: nat
    var active: bool
    var restart: bool
    var newId: Option<Id>

    constructor (id: Id, rank: nat)
      ensures Record() == NewEntry(id, rank)
    {
      this.id, this.rank := id, rank;
      active, restart, newId := true, false, None;
    }

    ghost function Record(): Entry
      reads this
    {
      Entry(id, rank, active, restart, newId)
    }
  }

  /** What the first loop of `check_timers` comes to from its i-th turn, with these ids kicked so far. */
  ghost function KicksTo(st: State, ids: seq<Id>, i: nat, now: int, config: Config, kicked: set<Id>): (State, set<Id>)
    requires i <= |ids|
  {
    var (last, rest) := KickExpired(st, ids[i..], now, config);
    (last, rest + kicked)
  }

  lemma KicksMore(st: State, ids: seq<Id>, i: nat, now: int, config: Config, kicked: set<Id>)
    requires i < |ids|
    ensures var kicked1 := if Unexpired(st.timers, ids[i], now) then kicked else {ids[i]} + kicked;
      KicksTo(st, ids, i, now, config, kicked) == KicksTo(KickOne(st, ids[i], now, config), ids, i + 1, now, config, kicked1)
  {
    KickFrom(st, ids, i, now, config);
    var rest := KickExpired(KickOne(st, ids[i], now, config), ids[i + 1..], now, config).1;
    assert rest + {ids[i]} + kicked == rest + ({ids[i]} + kicked);
  }

  class Downloader {
    var servers: seq<Server>
    var timers: map<Id, seq<int>>
    var serverRestarts: int
    ghost var surplus: nat

    constructor ()
      ensures Valid() && State() == Start()
    {
      servers, timers, serverRestarts, surplus := [], map[], 0, 0;
    }

    /** The list holds each server once. */
    ghost predicate Valid()
      reads this
    {
      forall i, j :: 0 <= i < j < |servers| ==> servers[i] != servers[j]
    }

    ghost function Records(): (r: seq<Entry>)
      reads this, servers
      ensures |r| == |servers| && forall i :: 0 <= i < |r| ==> r[i] == servers[i].Record()
    {
      seq(|servers|, i requires 0 <= i < |servers| reads this, servers => servers[i].Record())
    }

    ghost function State(): State
      reads this, servers
    {
      Restarts.State(Records(), timers, serverRestarts, surplus)
    }

    /** The search loop of `init_server`. */
    method FindServer(id: Id) returns (k: nat)
      ensures k == Find(Records(), id)
    {
      k := 0;
      while k < |servers| && servers[k].id != id
        invariant k <= |servers|
        invariant forall j :: 0 <= j < k ==> servers[j].id != id
      {
        k := k + 1;
      }
      assert k < |servers| ==> Records()[k].id == id;
      assert forall j :: 0 <= j < k ==> Records()[j].id != id;
    }

    /** Where the list, sorted, takes a new server. */
    method FindSpot(rank: nat) returns (k: nat)
      ensures k == Spot(Records(), rank)
    {
      k := |servers|;
      assert Records()[..k] == Records();
      while k > 0 && servers[k - 1].rank > rank
        invariant k <= |servers| && Spot(Records(), rank) == Spot(Records()[..k], rank)
      {
        assert Records()[..k][..k - 1] == Records()[..k - 1];
        k := k - 1;
      }
    }

    /** The server exists: it is set up again once its connections are done. */
    method MarkRestart(k: nat, newId: Option<Id>)
      requires Valid() && k < |servers|
      modifies this`serverRestarts, this`surplus, servers[k]
      ensures Valid() && timers == old(timers) && servers == old(servers) && serverRestarts == old(serverRestarts) + 1
      ensures surplus == if old(servers[k].restart) then old(surplus) + 1 else old(surplus)
      ensures Records() == var before := old(Records()); before[k := before[k].(restart := true, newId := newId)]
    {
      if servers[k].restart {
        surplus := surplus + 1;
      }
      servers[k].newId := newId;
      servers[k].restart := true;
      serverRestarts := serverRestarts + 1;
    }

    method InsertServer(server: Server, spot: nat)
      requires Valid() && spot <= |servers| && server !in servers
      modifies this`servers
      ensures Valid() && servers == old(servers)[..spot] + [server] + old(servers)[spot..]
      ensures Records() == old(Records())[..spot] + [server.Record()] + old(Records())[spot..]
    {
      servers := servers[..spot] + [server] + servers[spot..];
    }

    method AddServer(id: Id, rank: nat)
      requires Valid()
      modifies this`servers
      ensures Valid() && Records() == Insert(old(Records()), NewEntry(id, rank))
      ensures forall i :: 0 <= i < |servers| ==> servers[i] in old(servers) || fresh(servers[i])
    {
      var server := new Server(id, rank);
      var spot := FindSpot(rank);
      InsertServer(server, spot);
    }

    method InitServer(oldId: Option<Id>, newId: Option<Id>, config: Config)
      requires Valid()
      modifies this, servers
      ensures Valid() && State() == Restarts.InitServer(old(State()), oldId, newId, config)
      ensures forall i :: 0 <= i < |servers| ==> servers[i] in old(servers) || fresh(servers[i])
    {
      var k := |servers|;
      if oldId.Some? {
        k := FindServer(oldId.value);
      }
      if k < |servers| {
        MarkRestart(k, newId);
      } else if newId.Some? && newId.value in config {
        AddServer(newId.value, config[newId.value]);
      }
    }

    method PlanServer(id: Id, stamp: int)
      modifies this`timers
      ensures State() == Restarts.PlanServer(old(State()), id, stamp)
    {
      if id !in timers {
        timers := timers[id := []];
      }
      timers := timers[id := timers[id] + [stamp]];
    }

    method ClearTimers(id: Id)
      modifies this`timers
      ensures State() == Restarts.ClearTimers(old(State()), id)
    {
      timers := timers - {id};
    }

    method TriggerServer(id: Id, stamp: int, config: Config)
      requires Valid()
      modifies this, servers
      ensures Valid() && State() == Restarts.TriggerServer(old(State()), id, stamp, config)
    {
      if id in timers {
        if stamp in timers[id] {
          ClearTimers(id);
          InitServer(Some(id), Some(id), config);
        }
      }
    }

    /** The search loop of `unblock`. */
    method FindIdle(id: Id) returns (found: bool)
      ensures found == AnyIdle(Records(), id)
    {
      ghost var records := Records();
      var i := 0;
      while i < |servers| && !(servers[i].id == id && !servers[i].active)
        invariant i <= |servers|
        invariant forall j :: 0 <= j < i ==> !(records[j].id == id && !records[j].active)
      {
        i := i + 1;
      }
      found := i < |servers|;
      assert found ==> records[i].id == id && !records[i].active;
    }

    method Unblock(id: Id, config: Config)
      requires Valid()
      modifies this, servers
      ensures Valid() && State() == Restarts.Unblock(old(State()), id, config)
    {
      ClearTimers(id);
      var found := FindIdle(id);
      if found {
        InitServer(Some(id), Some(id), config);
      }
    }

    /** The list comprehension over the stamps of one server. */
    method AnyUnexpired(id: Id, now: int) returns (found: bool)
      ensures found == Unexpired(timers, id, now)
    {
      var stamps := if id in timers then timers[id] else [];
      var i := 0;
      while i < |stamps| && stamps[i] < now
        invariant i <= |stamps| && forall j :: 0 <= j < i ==> stamps[j] < now
      {
        i := i + 1;
      }
      found := i < |stamps|;
    }

    /** One turn of the first loop of `check_timers`. */
    method KickOne(id: Id, now: int, config: Config) returns (kicked: bool)
      requires Valid()
      modifies this, servers
      ensures Valid() && State() == Restarts.KickOne(old(State()), id, now, config)
      ensures kicked == !Unexpired(old(timers), id, now)
      ensures forall i :: 0 <= i < |servers| ==> servers[i] in old(servers) || fresh(servers[i])
    {
      var found := AnyUnexpired(id, now);
      kicked := !found;
      if kicked {
        ClearTimers(id);
        InitServer(Some(id), Some(id), config);
      }
    }

    method KickNext(ids: seq<Id>, i: nat, now: int, config: Config, kicked: set<Id>) returns (kicked1: set<Id>)
      requires Valid() && i < |ids|
      modifies this, servers
      ensures Valid() && State() == Restarts.KickOne(old(State()), ids[i], now, config)
      ensures kicked1 == if Unexpired(old(timers), ids[i], now) then kicked else {ids[i]} + kicked
      ensures forall j :: 0 <= j < |servers| ==> servers[j] in old(servers) || fresh(servers[j])
    {
      kicked1 := kicked;
      var one := KickOne(ids[i], now, config);
      if one {
        kicked1 := {ids[i]} + kicked;
      }
    }

    /** The first loop of `check_timers`; `ids` is the copy of the keys. */
    method KickExpired(ids: seq<Id>, now: int, config: Config) returns (kicked: set<Id>)
      requires Valid()
      modifies this, servers
      ensures Valid() && (State(), kicked) == Restarts.KickExpired(old(State()), ids, now, config)
      ensures forall i :: 0 <= i < |servers| ==> servers[i] in old(servers) || fresh(servers[i])
    {
      ghost var (all, allKicked) := Restarts.KickExpired(State(), ids, now, config);
      kicked := {};
      var i := 0;
      assert ids[i..] == ids && allKicked + kicked == allKicked;
      while i < |ids|
        invariant i <= |ids| && Valid()
        invariant forall j :: 0 <= j < |servers| ==> servers[j] in old(servers) || fresh(servers[j])
        invariant KicksTo(State(), ids, i, now, config, kicked) == (all, allKicked)
      {
        KicksMore(State(), ids, i, now, config, kicked);
        kicked := KickNext(ids, i, now, config, kicked);
        i := i + 1;
      }
    }

    /** One turn of the second loop of `check_timers`. */
    method ForceOne(i: nat, kicked: set<Id>, config: Config)
      requires Valid() && i < |servers|
      modifies this, servers
      ensures Valid() && State() == Restarts.ForceOne(old(State()), i, kicked, config)
      ensures forall j :: 0 <= j < |servers| ==> servers[j] in old(servers) || fresh(servers[j])
    {
      var id := servers[i].id;
      assert Records()[i].id == id;
      if id !in timers {
        if id !in kicked && !servers[i].active {
          InitServer(Some(id), Some(id), config);
        }
      }
    }

    /** The second loop of `check_timers`. */
    method ForceIdle(kicked: set<Id>, config: Config)
      requires Valid()
      modifies this, servers
      ensures Valid() && State() == Restarts.ForceIdle(old(State()), 0, kicked, config)
    {
      ghost var target := Restarts.ForceIdle(State(), 0, kicked, config);
      var i := 0;
      while i < |servers|
        invariant Valid() && i <= |servers|
        invariant forall j :: 0 <= j < |servers| ==> servers[j] in old(servers) || fresh(servers[j])
        invariant target == Restarts.ForceIdle(State(), i, kicked, config)
        decreases |servers| - i
      {
        ForceMore(State(), i, kicked, config);
        ghost var size := |State().servers|;
        ForceOne(i, kicked, config);
        assert |servers| == size;
        i := i + 1;
      }
    }

    method CheckTimers(ids: seq<Id>, now: int, config: Config)
      requires Valid() && forall id :: id in timers <==> id in ids
      modifies this, servers
      ensures Valid() && State() == Restarts.CheckTimers(old(State()), ids, now, config)
      ensures old(ForgottenAreFirst(State(), now)) <==> AllAwaited(State(), now)
    {
      CheckTimersAwaits(State(), ids, now, config);
      var kicked := KickExpired(ids, now, config);
      ForceIdle(kicked, config);
    }

    /** The main loop takes this server out when it comes to it. */
    ghost predicate Removable(i: nat, busy: set<Server>, later: set<Server>)
      requires i < |servers|
      reads this, servers
    {
      servers[i].restart && servers[i] !in busy && servers[i] !in later
    }

    /** The part of `run` that looks for a restarting server without busy connections, removes it, and sets up the one
        that replaces it. `later` are the servers with an address whose next search for articles lies ahead: one of them
        is passed over unless it has busy connections, restarting or not. */
    method RemoveRestarted(busy: set<Server>, later: set<Server>, config: Config) returns (removed: bool)
      requires Valid()
      modifies this, servers
      ensures Valid()
      ensures removed <==> exists i :: 0 <= i < |old(servers)| && old(Removable(i, busy, later))
      ensures !removed ==> State() == old(State())
      ensures removed ==> exists i :: 0 <= i < |old(servers)| && old(Removable(i, busy, later))
                                      && (forall j :: 0 <= j < i ==> !old(Removable(j, busy, later)))
                                      && State() == Restarts.RemoveServer(old(State()), i, config)
    {
      ghost var start := State();
      var i := 0;
      while i < |servers| && ((servers[i] in later && servers[i] !in busy) || !servers[i].restart || servers[i] in busy)
        invariant i <= |servers| && forall j :: 0 <= j < i ==> !Removable(j, busy, later)
      {
        i := i + 1;
      }
      removed := i < |servers|;
      assert removed ==> old(Removable(i, busy, later));
      if removed {
        var newId := servers[i].newId;
        servers := servers[..i] + servers[i + 1..];
        assert Records() == start.servers[..i] + start.servers[i + 1..];
        InitServer(None, newId, config);
        serverRestarts := serverRestarts - 1;
        assert State() == Restarts.RemoveServer(start, i, config);
      }
    }
  }
}
