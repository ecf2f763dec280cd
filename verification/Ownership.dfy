/**
 All servers and their connections together: steps of the main loop, of the receive workers, of the scheduler and of
 the user interface in any order. Every article that was handed out is held in exactly one place until it is disposed
 of, exactly once, and a server that is removed leaves nothing behind.
 */
module Ownership {
  import opened Options
  import opened Connections
  import opened Sessions
  import opened LifeCycle

  datatype Server = Server(feed: Feed, config: Config, conns: map<nat, Session>, idle: set<nat>, busy: set<nat>)

  /** The servers in use, the ledger, and every event so far. */
  datatype System = System(servers: map<nat, Server>, place: Ledger, history: seq<Event>)

  datatype Step =
    | AddServer(sv: nat, threads: nat, config: Config, limit: nat)      // init_server
    | Connect(sv: nat, c: nat)                                          // init_connect
    | Connected(sv: nat, c: nat)                                        // handshake complete, add_socket
    | Peek(sv: nat, supply: Supply, jobs: Jobs)                         // get_article(peek=True)
    | Wake(sv: nat, c: nat, mayWork: bool, supply: Supply, jobs: Jobs)  // prepare_request and add_socket
    | WriteEvent(sv: nat, c: nat, env: WriteEnv)
    | ReadEvent(sv: nat, c: nat, generation: nat, renv: ReadEnv)
    | Reset(sv: nat, c: nat, retry: bool, limit: nat, jobs: Jobs)       // time-out, lost connection, disconnect
    | FreeQueue(sv: nat)                                                // reset_article_queue on a disconnect
    | Deactivate(sv: nat)
    | MarkRestart(sv: nat)
    | RemoveServer(sv: nat, order: seq<nat>, limit: nat, jobs: Jobs)    // stop, and removal from the list

  // --------------------------------------------------------------------------------------------------- the steps

  /** The connections that `Server.__init__` creates. */
  function Threads(n: nat, limit: nat): (conns: map<nat, Session>)
    ensures forall c :: c in conns ==> conns[c] == Fresh(limit, 0)
  {
    if n == 0 then map[] else Threads(n - 1, limit)[n := Fresh(limit, 0)]
  }

  /** `Server.__init__`. */
  function NewServer(threads: nat, config: Config, limit: nat): Server {
    var conns := Threads(threads, limit);
    Server(Feed([], true, true, true, false), config, conns, conns.Keys, {})
  }

  function AddSocket(server: Server, c: nat): Server
    requires c in server.conns
  {
    if server.conns[c].isOpen then server.(idle := server.idle - {c}, busy := server.busy + {c}) else server
  }

  function RemoveSocket(server: Server, c: nat): Server {
    server.(idle := server.idle + {c}, busy := server.busy - {c})
  }

  /** The server after a call on connection c with this result. */
  function ServerAfter(server: Server, c: nat, r: Result): Server {
    var server1 := server.(feed := r.feed, conns := server.conns[c := r.s]);
    if r.parked then RemoveSocket(server1, c) else server1
  }

  /** The result of a call on connection c of server sv. */
  function Apply(sys: System, sv: nat, c: nat, r: Result): System
    requires sv in sys.servers
  {
    System(sys.servers[sv := ServerAfter(sys.servers[sv], c, r)], FollowAll(sys.place, r.events, sv, c), sys.history + r.events)
  }

  /** Events that touch no connection. */
  function ApplyToFeed(sys: System, sv: nat, feed: Feed, events: seq<Event>): System
    requires sv in sys.servers
  {
    System(sys.servers[sv := sys.servers[sv].(feed := feed)], FollowAll(sys.place, events, sv, 0), sys.history + events)
  }

  predicate HasConn(sys: System, sv: nat, c: nat) {
    sv in sys.servers && c in sys.servers[sv].conns
  }

  function ResetConn(sys: System, sv: nat, c: nat, limit: nat, jobs: Jobs): (r: System)
    requires HasConn(sys, sv, c)
    ensures forall d :: HasConn(sys, sv, d) ==> HasConn(r, sv, d)
  {
    Apply(sys, sv, c, HardReset(sys.servers[sv].conns[c], sys.servers[sv].feed, limit, sys.servers[sv].config.required, jobs))
  }

  predicate AllConns(sys: System, sv: nat, order: seq<nat>) {
    forall c :: c in order ==> HasConn(sys, sv, c)
  }

  /** The loop of `stop` over the idle connections. */
  function ResetConns(sys: System, sv: nat, order: seq<nat>, limit: nat, jobs: Jobs): System
    requires AllConns(sys, sv, order)
    decreases |order|
  {
    if order == [] then sys else ResetConns(ResetConn(sys, sv, order[0], limit, jobs), sv, order[1..], limit, jobs)
  }

  function Prepared(x: Session, feed: Feed, mayWork: bool, supply: Supply, required: bool, jobs: Jobs): Result {
    var (y, feed1, events, _) := PrepareRequest(x, feed, mayWork, supply, required, jobs);
    Result(y, feed1, events, false)
  }

  function PrepareApply(sys: System, sv: nat, c: nat, mayWork: bool, supply: Supply, jobs: Jobs): System
    requires HasConn(sys, sv, c)
  {
    Apply(sys, sv, c, Prepared(sys.servers[sv].conns[c], sys.servers[sv].feed, mayWork, supply, sys.servers[sv].config.required, jobs))
  }

  function Woken(sys: System, step: Step): System
    requires step.Wake? && HasConn(sys, step.sv, step.c)
  {
    var sys1 := PrepareApply(sys, step.sv, step.c, step.mayWork, step.supply, step.jobs);
    sys1.(servers := sys1.servers[step.sv := AddSocket(sys1.servers[step.sv], step.c)])
  }

  function Removed(sys: System, step: Step): System
    requires step.RemoveServer? && step.sv in sys.servers
    requires AllConns(sys, step.sv, step.order)
  {
    var sys1 := ResetConns(sys, step.sv, step.order, step.limit, step.jobs);
    if step.sv !in sys1.servers then sys1
    else
      var (feed, events) := ResetQueue(sys1.servers[step.sv].feed);
      var sys2 := ApplyToFeed(sys1, step.sv, feed, events);
      sys2.(servers := sys2.servers - {step.sv})
  }

  /** When a step can happen. Assumed of the rest of the program: the supply gives out only articles that no server
      holds, and no connection that is ready is asked to log in while an article waits on it. */
  ghost predicate Enabled(sys: System, step: Step) {
    match step
    case AddServer(sv, _, _, _) => sv !in sys.servers
    case Connect(sv, c) =>
      HasConn(sys, sv, c) && !sys.servers[sv].conns[c].isOpen && sys.servers[sv].conns[c].limit > 0 && sys.servers[sv].conns[c].permits > 0
    case Connected(sv, c) => HasConn(sys, sv, c) && sys.servers[sv].conns[c].isOpen
    case Peek(sv, supply, _) => sv in sys.servers && FreshSupply(sys.place, supply)
    case Wake(sv, c, _, supply, _) => HasConn(sys, sv, c) && sys.servers[sv].conns[c].connected && FreshSupply(sys.place, supply)
    case WriteEvent(sv, c, env) => HasConn(sys, sv, c) && sys.servers[sv].conns[c].isOpen && FreshSupply(sys.place, env.supply)
    case ReadEvent(sv, c, generation, env) =>
      && HasConn(sys, sv, c)
      && var server := sys.servers[sv];
         && FreshForRead(sys.place, sv, c, server.conns[c], server.feed, generation, server.config, env)
         && Unsurprised(server.conns[c], server.feed, generation, env.responses, server.config, env.limit)
    case Reset(sv, c, _, _, _) => HasConn(sys, sv, c)
    case FreeQueue(sv) => sv in sys.servers
    case Deactivate(sv) => sv in sys.servers
    case MarkRestart(sv) => sv in sys.servers
    case RemoveServer(sv, order, _, _) =>
      && sv in sys.servers && sys.servers[sv].feed.restart && sys.servers[sv].busy == {}
      && (forall c :: c in order <==> c in sys.servers[sv].idle) && AllConns(sys, sv, order)
  }

  ghost function Next(sys: System, step: Step): System
    requires Enabled(sys, step)
  {
    match step
    case AddServer(sv, threads, config, limit) => sys.(servers := sys.servers[sv := NewServer(threads, config, limit)])
    case Connect(sv, c) => Apply(sys, sv, c, Result(InitConnect(sys.servers[sv].conns[c]), sys.servers[sv].feed, [], false))
    case Connected(sv, c) =>
      var sys1 := Apply(sys, sv, c, Result(sys.servers[sv].conns[c].(connected := true), sys.servers[sv].feed, [], false));
      sys1.(servers := sys1.servers[sv := AddSocket(sys1.servers[sv], c)])
    case Peek(sv, supply, jobs) =>
      var (feed, _, events) := GetArticle(sys.servers[sv].feed, true, supply, jobs);
      ApplyToFeed(sys, sv, feed, events)
    case Wake(_, _, _, _, _) => Woken(sys, step)
    case WriteEvent(sv, c, env) =>
      Apply(sys, sv, c, Write(sys.servers[sv].conns[c], sys.servers[sv].feed, sys.servers[sv].config.required, env))
    case ReadEvent(sv, c, generation, env) =>
      Apply(sys, sv, c, Read(sys.servers[sv].conns[c], sys.servers[sv].feed, generation, sys.servers[sv].config, env))
    case Reset(sv, c, retry, limit, jobs) =>
      Apply(sys, sv, c, ResetNw(sys.servers[sv].conns[c], sys.servers[sv].feed, None, retry, limit, sys.servers[sv].config.required, jobs))
    case FreeQueue(sv) =>
      var (feed, events) := ResetQueue(sys.servers[sv].feed);
      ApplyToFeed(sys, sv, feed, events)
    case Deactivate(sv) =>
      var (feed, events) := ResetQueue(sys.servers[sv].feed);
      ApplyToFeed(sys, sv, feed.(active := false), events)
    case MarkRestart(sv) => ApplyToFeed(sys, sv, sys.servers[sv].feed.(restart := true), [])
    case RemoveServer(sv, order, _, _) => Removed(sys, step)
  }

  // ------------------------------------------------------------------------------------------------ the invariant

  /** Idle and busy connections partition the server's connections, and every busy one is open. */
  predicate Partitioned(server: Server) {
    && server.idle !! server.busy && server.idle + server.busy == server.conns.Keys
    && forall c :: c in server.busy ==> c in server.conns && server.conns[c].isOpen
  }

  predicate SessionsOk(server: Server) {
    forall c :: c in server.conns ==> SessionOk(server.conns[c])
  }

  ghost predicate ServerHolds(place: Ledger, sv: nat, server: Server) {
    && QueueHolds(place, sv, server.feed.queue)
    && forall c :: c in server.conns ==> ConnHolds(place, sv, c, server.conns[c].next, server.conns[c].inflight, None)
  }

  ghost predicate ServerOk(place: Ledger, sv: nat, server: Server) {
    Partitioned(server) && SessionsOk(server) && ServerHolds(place, sv, server)
  }

  predicate PlaceExists(servers: map<nat, Server>, p: Place) {
    p.server in servers && (p.Prefetched? || p.conn in servers[p.server].conns)
  }

  /** Handed out once more than disposed of while held somewhere, and equally often otherwise; and at every moment of
      the past either the one or the other. */
  ghost predicate Balanced(history: seq<Event>, place: Ledger) {
    && (forall a :: Handings(history, a) == Endings(history, a) + (if a in place then 1 else 0))
    && (forall a, n :: 0 <= n <= |history| ==> OnceAtATime(history[..n], a))
  }

  /** Never disposed of without having been handed out, and never handed out again before that. */
  predicate OnceAtATime(history: seq<Event>, a: Article) {
    Endings(history, a) <= Handings(history, a) <= Endings(history, a) + 1
  }

  function Handings(events: seq<Event>, a: Article): nat {
    if events == [] then 0 else (if events[0].Handed? && events[0].a == a then 1 else 0) + Handings(events[1..], a)
  }

  function Endings(events: seq<Event>, a: Article): nat {
    if events == [] then 0 else (if events[0].Ended? && events[0].a == a then 1 else 0) + Endings(events[1..], a)
  }

  /** The servers are in order, and every place in the ledger exists. */
  ghost predicate ServersOk(servers: map<nat, Server>, place: Ledger) {
    && (forall sv :: sv in servers ==> ServerOk(place, sv, servers[sv]))
    && (forall a :: a in place ==> PlaceExists(servers, place[a]))
  }

  ghost predicate SysOk(sys: System) {
    ServersOk(sys.servers, sys.place) && Balanced(sys.history, sys.place)
  }

  // --------------------------------------------------------------------------------------- every step keeps it

  lemma {:induction false} CountsConcat(x: seq<Event>, y: seq<Event>, a: Article)
    ensures Handings(x + y, a) == Handings(x, a) + Handings(y, a)
    ensures Endings(x + y, a) == Endings(x, a) + Endings(y, a)
  {
    if x == [] {
      assert x + y == y;
    } else {
      assert (x + y)[1..] == x[1..] + y;
      CountsConcat(x[1..], y, a);
    }
  }

  /** Legal events change the ledger by what they hand out and dispose of. */
  lemma {:induction false} LegalCounts(place: Ledger, events: seq<Event>, s: nat, c: nat, a: Article)
    requires Legal(place, events, s, c)
    ensures (if a in place then 1 else 0) + Handings(events, a)
            == (if a in FollowAll(place, events, s, c) then 1 else 0) + Endings(events, a)
    decreases |events|
  {
    if events != [] {
      LegalCounts(Follow(place, events[0], s, c), events[1..], s, c, a);
    }
  }

  lemma {:induction false} LegalPrefix(place: Ledger, events: seq<Event>, n: nat, s: nat, c: nat)
    requires Legal(place, events, s, c) && n <= |events|
    ensures Legal(place, events[..n], s, c)
    decreases |events|
  {
    if n > 0 {
      assert events[..n][1..] == events[1..][..n - 1];
      LegalPrefix(Follow(place, events[0], s, c), events[1..], n - 1, s, c);
    }
  }

  lemma StaysOnce(history: seq<Event>, place: Ledger, events: seq<Event>, s: nat, c: nat, a: Article, n: nat)
    requires Balanced(history, place) && Legal(place, events, s, c) && n <= |history + events|
    ensures OnceAtATime((history + events)[..n], a)
  {
    if n <= |history| {
      assert (history + events)[..n] == history[..n];
    } else {
      var m := n - |history|;
      assert (history + events)[..n] == history + events[..m];
      LegalPrefix(place, events, m, s, c);
      CountsConcat(history, events[..m], a);
      LegalCounts(place, events[..m], s, c, a);
    }
  }

  lemma StaysBalanced(history: seq<Event>, place: Ledger, events: seq<Event>, s: nat, c: nat)
    requires Balanced(history, place) && Legal(place, events, s, c)
    ensures Balanced(history + events, FollowAll(place, events, s, c))
  {
    forall a ensures Handings(history + events, a)
                     == Endings(history + events, a) + (if a in FollowAll(place, events, s, c) then 1 else 0) {
      CountsConcat(history, events, a);
      LegalCounts(place, events, s, c, a);
    }
    forall a, n | 0 <= n <= |history + events| ensures OnceAtATime((history + events)[..n], a) {
      StaysOnce(history, place, events, s, c, a, n);
    }
  }

  /** Queues and connections that the events do not touch. */
  lemma OtherQueue(before: Ledger, after: Ledger, s: nat, c: nat, sv: nat, queue: seq<Article>)
    requires QueueHolds(before, sv, queue) && Elsewhere(before, after, s, c) && sv != s
    ensures QueueHolds(after, sv, queue)
  {
  }

  lemma OtherConn(before: Ledger, after: Ledger, s: nat, c: nat, sv: nat, d: nat, next: Option<Request>, inflight: seq<Option<Article>>)
    requires ConnHolds(before, sv, d, next, inflight, None) && Elsewhere(before, after, s, c) && (sv != s || d != c)
    ensures ConnHolds(after, sv, d, next, inflight, None)
  {
  }

  lemma OtherServer(before: Ledger, after: Ledger, s: nat, c: nat, sv: nat, server: Server)
    requires ServerOk(before, sv, server) && Elsewhere(before, after, s, c) && sv != s
    ensures ServerOk(after, sv, server)
  {
    OtherQueue(before, after, s, c, sv, server.feed.queue);
    forall d | d in server.conns ensures ConnHolds(after, sv, d, server.conns[d].next, server.conns[d].inflight, None) {
      OtherConn(before, after, s, c, sv, d, server.conns[d].next, server.conns[d].inflight);
    }
  }

  /** The server after a call on connection c, which is busy, idle or parked. */
  predicate Called(server: Server, server1: Server, c: nat) {
    && c in server.conns && c in server1.conns && server1.conns == server.conns[c := server1.conns[c]]
    && SessionOk(server1.conns[c])
    && ((server1.idle == server.idle && server1.busy == server.busy && (c in server.busy ==> server1.conns[c].isOpen))
        || (server1.idle == server.idle + {c} && server1.busy == server.busy - {c}))
  }

  lemma CalledPartitioned(server: Server, server1: Server, c: nat)
    requires Partitioned(server) && Called(server, server1, c)
    ensures Partitioned(server1)
  {
    assert server1.conns.Keys == server.conns.Keys;
    assert server1.idle + server1.busy == server.idle + server.busy;
    forall d | d in server1.busy ensures d in server1.conns && server1.conns[d].isOpen {
      assert d in server.busy && (d != c ==> server1.conns[d] == server.conns[d]);
    }
  }

  lemma CalledSessions(server: Server, server1: Server, c: nat)
    requires SessionsOk(server) && Called(server, server1, c)
    ensures SessionsOk(server1)
  {
    forall d | d in server1.conns ensures SessionOk(server1.conns[d]) {
      if d != c {
        assert d in server.conns && server1.conns[d] == server.conns[d];
      }
    }
  }

  lemma SameServer(before: Ledger, after: Ledger, s: nat, c: nat, server: Server, server1: Server)
    requires ServerOk(before, s, server) && Elsewhere(before, after, s, c) && Called(server, server1, c)
    requires QueueHolds(after, s, server1.feed.queue)
    requires ConnHolds(after, s, c, server1.conns[c].next, server1.conns[c].inflight, None)
    ensures ServerOk(after, s, server1)
  {
    CalledPartitioned(server, server1, c);
    CalledSessions(server, server1, c);
    forall d | d in server1.conns ensures ConnHolds(after, s, d, server1.conns[d].next, server1.conns[d].inflight, None) {
      if d != c {
        assert d in server.conns && server1.conns[d] == server.conns[d];
        OtherConn(before, after, s, c, s, d, server.conns[d].next, server.conns[d].inflight);
      }
    }
  }

  lemma PlacesExist(before: Ledger, after: Ledger, s: nat, c: nat, servers: map<nat, Server>, servers1: map<nat, Server>)
    requires forall a :: a in before ==> PlaceExists(servers, before[a])
    requires Elsewhere(before, after, s, c) && s in servers1 && c in servers1[s].conns
    requires forall sv :: sv in servers ==> sv in servers1 && servers[sv].conns.Keys <= servers1[sv].conns.Keys
    ensures forall a :: a in after ==> PlaceExists(servers1, after[a])
  {
    forall a | a in after ensures PlaceExists(servers1, after[a]) {
      if !Local(after[a], s, c) {
        assert PlaceExists(servers, before[a]);
      }
    }
  }

  lemma EachServerOk(servers: map<nat, Server>, place: Ledger, place1: Ledger, sv: nat, c: nat, server1: Server, t: nat)
    requires ServersOk(servers, place) && sv in servers && Elsewhere(place, place1, sv, c) && ServerOk(place1, sv, server1)
    requires t in servers
    ensures ServerOk(place1, t, servers[sv := server1][t])
  {
    if t != sv {
      OtherServer(place, place1, sv, c, t, servers[t]);
    }
  }

  lemma AllServersOk(servers: map<nat, Server>, servers1: map<nat, Server>, place: Ledger, place1: Ledger, sv: nat, c: nat, server1: Server)
    requires ServersOk(servers, place) && sv in servers && Elsewhere(place, place1, sv, c) && ServerOk(place1, sv, server1)
    requires servers1 == servers[sv := server1]
    ensures forall t :: t in servers1 ==> ServerOk(place1, t, servers1[t])
  {
    forall t | t in servers1 ensures ServerOk(place1, t, servers1[t]) {
      EachServerOk(servers, place, place1, sv, c, server1, t);
    }
  }

  /** One server was called and the ledger followed. */
  lemma CalledServers(servers: map<nat, Server>, place: Ledger, sv: nat, c: nat, server1: Server, events: seq<Event>)
    requires ServersOk(servers, place) && sv in servers && Called(servers[sv], server1, c)
    requires Accounted(place, events, sv, c, server1.feed.queue, server1.conns[c].next, server1.conns[c].inflight, None)
    ensures ServersOk(servers[sv := server1], FollowAll(place, events, sv, c))
  {
    var place1, servers1 := FollowAll(place, events, sv, c), servers[sv := server1];
    assert ServerOk(place, sv, servers[sv]);
    SameServer(place, place1, sv, c, servers[sv], server1);
    AllServersOk(servers, servers1, place, place1, sv, c, server1);
    SameConns(servers, servers1, sv, c, server1);
    PlacesExist(place, place1, sv, c, servers, servers1);
  }

  lemma SameConns(servers: map<nat, Server>, servers1: map<nat, Server>, sv: nat, c: nat, server1: Server)
    requires sv in servers && Called(servers[sv], server1, c) && servers1 == servers[sv := server1]
    ensures forall t :: t in servers ==> t in servers1 && servers[t].conns.Keys <= servers1[t].conns.Keys
    ensures c in servers1[sv].conns
  {
    assert server1.conns.Keys == servers[sv].conns.Keys;
  }

  lemma CalledKeeps(sys: System, sv: nat, c: nat, server1: Server, events: seq<Event>)
    requires SysOk(sys) && HasConn(sys, sv, c) && Called(sys.servers[sv], server1, c)
    requires Accounted(sys.place, events, sv, c, server1.feed.queue, server1.conns[c].next, server1.conns[c].inflight, None)
    ensures SysOk(System(sys.servers[sv := server1], FollowAll(sys.place, events, sv, c), sys.history + events))
  {
    StaysBalanced(sys.history, sys.place, events, sv, c);
    CalledServers(sys.servers, sys.place, sv, c, server1, events);
  }

  lemma ServerAfterIsCalled(server: Server, c: nat, r: Result)
    requires c in server.conns && SessionOk(r.s) && (c in server.busy ==> r.parked || r.s.isOpen)
    ensures Called(server, ServerAfter(server, c, r), c)
    ensures ServerAfter(server, c, r).feed == r.feed && ServerAfter(server, c, r).conns[c] == r.s
  {
  }

  /** A call on a connection that is accounted for keeps the whole system in order. */
  lemma ApplyKeeps(sys: System, sv: nat, c: nat, r: Result)
    requires SysOk(sys) && HasConn(sys, sv, c) && SessionOk(r.s)
    requires c in sys.servers[sv].busy ==> r.parked || r.s.isOpen
    requires ResultHolds(sys.place, sv, c, r)
    ensures SysOk(Apply(sys, sv, c, r))
  {
    ServerAfterIsCalled(sys.servers[sv], c, r);
    CalledKeeps(sys, sv, c, ServerAfter(sys.servers[sv], c, r), r.events);
  }

  lemma AddSocketOk(place: Ledger, sv: nat, server: Server, c: nat)
    requires ServerOk(place, sv, server) && c in server.conns
    ensures ServerOk(place, sv, AddSocket(server, c))
  {
    var server1 := AddSocket(server, c);
    assert server1.idle + server1.busy == server.idle + server.busy;
    assert ServerHolds(place, sv, server1);
  }

  lemma AddSocketServers(servers: map<nat, Server>, place: Ledger, sv: nat, c: nat)
    requires ServersOk(servers, place) && sv in servers && c in servers[sv].conns
    ensures ServersOk(servers[sv := AddSocket(servers[sv], c)], place)
  {
    var servers1 := servers[sv := AddSocket(servers[sv], c)];
    assert ServerOk(place, sv, servers[sv]);
    AddSocketOk(place, sv, servers[sv], c);
    forall a | a in place ensures PlaceExists(servers1, place[a]) {
      assert PlaceExists(servers, place[a]);
    }
    forall t | t in servers1 ensures ServerOk(place, t, servers1[t]) {
      assert t in servers && ServerOk(place, t, servers[t]);
    }
  }

  lemma AddSocketKeeps(sys: System, sv: nat, c: nat)
    requires SysOk(sys) && HasConn(sys, sv, c)
    ensures SysOk(sys.(servers := sys.servers[sv := AddSocket(sys.servers[sv], c)]))
  {
    AddSocketServers(sys.servers, sys.place, sv, c);
  }

  /** Only what this server had prefetched, or prefetches now, differs. */
  ghost predicate OnlyPrefetched(before: Ledger, after: Ledger, sv: nat) {
    && (forall a :: a in before && before[a] != Prefetched(sv) ==> a in after && after[a] == before[a])
    && (forall a :: a in after && after[a] != Prefetched(sv) ==> a in before && before[a] == after[a])
  }

  lemma FeedOk(before: Ledger, after: Ledger, sv: nat, t: nat, server: Server, feed: Feed)
    requires ServerOk(before, t, server) && OnlyPrefetched(before, after, sv)
    requires if t == sv then QueueHolds(after, sv, feed.queue) else feed == server.feed
    ensures ServerOk(after, t, server.(feed := feed))
  {
    if t != sv {
      OtherQueue(before, after, sv, 0, t, feed.queue) by {
        assert Elsewhere(before, after, sv, 0);
      }
    }
    forall d | d in server.conns ensures ConnHolds(after, t, d, server.conns[d].next, server.conns[d].inflight, None) {
      OtherFeed(before, after, sv, t, d, server.conns[d].next, server.conns[d].inflight);
    }
  }

  lemma OtherFeed(before: Ledger, after: Ledger, sv: nat, t: nat, d: nat, next: Option<Request>, inflight: seq<Option<Article>>)
    requires ConnHolds(before, t, d, next, inflight, None) && OnlyPrefetched(before, after, sv)
    ensures ConnHolds(after, t, d, next, inflight, None)
  {
  }

  lemma ApplyToFeedKeeps(sys: System, sv: nat, feed: Feed, events: seq<Event>)
    requires SysOk(sys) && sv in sys.servers && Legal(sys.place, events, sv, 0)
    requires OnlyPrefetched(sys.place, FollowAll(sys.place, events, sv, 0), sv)
    requires QueueHolds(FollowAll(sys.place, events, sv, 0), sv, feed.queue)
    ensures SysOk(ApplyToFeed(sys, sv, feed, events))
  {
    var sys1 := ApplyToFeed(sys, sv, feed, events);
    StaysBalanced(sys.history, sys.place, events, sv, 0);
    forall t | t in sys1.servers ensures ServerOk(sys1.place, t, sys1.servers[t]) {
      assert ServerOk(sys.place, t, sys.servers[t]);
      FeedOk(sys.place, sys1.place, sv, t, sys.servers[t], if t == sv then feed else sys.servers[t].feed);
    }
    forall a | a in sys1.place ensures PlaceExists(sys1.servers, sys1.place[a]) {
      if sys1.place[a] != Prefetched(sv) {
        assert PlaceExists(sys.servers, sys.place[a]);
      }
    }
  }

  lemma PeekKeeps(sys: System, sv: nat, supply: Supply, jobs: Jobs)
    requires SysOk(sys) && sv in sys.servers && FreshSupply(sys.place, supply)
    ensures var (feed, _, events) := GetArticle(sys.servers[sv].feed, true, supply, jobs);
      SysOk(ApplyToFeed(sys, sv, feed, events))
  {
    assert ServerOk(sys.place, sv, sys.servers[sv]);
    GetArticleHolds(sys.place, sv, 0, sys.servers[sv].feed, true, supply, jobs);
    var (feed, found, events) := GetArticle(sys.servers[sv].feed, true, supply, jobs);
    assert [] + feed.queue == feed.queue;
    ApplyToFeedKeeps(sys, sv, feed, events);
  }

  lemma FreeQueueKeeps(sys: System, sv: nat, feed: Feed)
    requires SysOk(sys) && sv in sys.servers && feed.queue == []
    ensures SysOk(ApplyToFeed(sys, sv, feed, ResetQueue(sys.servers[sv].feed).1))
  {
    var queue := sys.servers[sv].feed.queue;
    assert ServerOk(sys.place, sv, sys.servers[sv]);
    PoolAllEnds(queue);
    EndsFollow(sys.place, PoolAll(queue), queue, sv, 0);
    ApplyToFeedKeeps(sys, sv, feed, PoolAll(queue));
  }

  lemma {:induction false} ThreadsOk(n: nat, limit: nat)
    ensures forall c :: c in Threads(n, limit) ==> SessionOk(Threads(n, limit)[c])
  {
    FreshIsOk(limit, 0);
  }

  lemma AddServerKeeps(sys: System, sv: nat, threads: nat, config: Config, limit: nat)
    requires SysOk(sys) && sv !in sys.servers
    ensures SysOk(sys.(servers := sys.servers[sv := NewServer(threads, config, limit)]))
  {
    var server := NewServer(threads, config, limit);
    var servers1 := sys.servers[sv := server];
    ThreadsOk(threads, limit);
    forall a | a in sys.place ensures PlaceExists(servers1, sys.place[a]) && sys.place[a].server != sv {
      assert PlaceExists(sys.servers, sys.place[a]);
    }
    forall c | c in server.conns ensures ConnHolds(sys.place, sv, c, server.conns[c].next, server.conns[c].inflight, None) {
      assert server.conns[c] == Fresh(limit, 0);
      assert Articles([]) + Only(None) == [];
    }
    assert ServerOk(sys.place, sv, server);
    forall t | t in servers1 ensures ServerOk(sys.place, t, servers1[t]) {
      if t != sv {
        assert ServerOk(sys.place, t, sys.servers[t]);
      }
    }
  }

  // ------------------------------------------------------------------------------------- calls on a connection

  /** What a call needs to know of its connection. */
  lemma ConnOf(sys: System, sv: nat, c: nat)
    requires SysOk(sys) && HasConn(sys, sv, c)
    ensures var server := sys.servers[sv]; var x := server.conns[c];
      && SessionOk(x) && QueueHolds(sys.place, sv, server.feed.queue) && ConnHolds(sys.place, sv, c, x.next, x.inflight, None)
      && (c in server.busy ==> x.isOpen)
  {
    assert ServerOk(sys.place, sv, sys.servers[sv]);
  }

  /** A call that causes no event and holds the same articles as before. */
  lemma QuietKeeps(sys: System, sv: nat, c: nat, y: Session)
    requires SysOk(sys) && HasConn(sys, sv, c) && SessionOk(y)
    requires var x := sys.servers[sv].conns[c]; y.next == x.next && Articles(y.inflight) == Articles(x.inflight) && y.isOpen
    ensures SysOk(Apply(sys, sv, c, Result(y, sys.servers[sv].feed, [], false)))
  {
    ConnOf(sys, sv, c);
    ApplyKeeps(sys, sv, c, Result(y, sys.servers[sv].feed, [], false));
  }

  lemma ConnectKeeps(sys: System, sv: nat, c: nat)
    requires SysOk(sys) && HasConn(sys, sv, c) && !sys.servers[sv].conns[c].isOpen && sys.servers[sv].conns[c].limit > 0
    ensures sys.servers[sv].conns[c].permits > 0
    ensures SysOk(Apply(sys, sv, c, Result(InitConnect(sys.servers[sv].conns[c]), sys.servers[sv].feed, [], false)))
  {
    ConnOf(sys, sv, c);
    var x := sys.servers[sv].conns[c];
    InitConnectKeeps(x);
    assert Articles([None]) == [] && x.inflight == [];
    QuietKeeps(sys, sv, c, InitConnect(x));
  }

  lemma ConnectedKeeps(sys: System, sv: nat, c: nat)
    requires SysOk(sys) && HasConn(sys, sv, c) && sys.servers[sv].conns[c].isOpen
    ensures var sys1 := Apply(sys, sv, c, Result(sys.servers[sv].conns[c].(connected := true), sys.servers[sv].feed, [], false));
      SysOk(sys1.(servers := sys1.servers[sv := AddSocket(sys1.servers[sv], c)]))
  {
    ConnOf(sys, sv, c);
    var y := sys.servers[sv].conns[c].(connected := true);
    QuietKeeps(sys, sv, c, y);
    AddSocketKeeps(Apply(sys, sv, c, Result(y, sys.servers[sv].feed, [], false)), sv, c);
  }

  lemma PreparedKeeps(place: Ledger, sv: nat, c: nat, x: Session, feed: Feed, mayWork: bool, supply: Supply, required: bool, jobs: Jobs)
    requires QueueHolds(place, sv, feed.queue) && ConnHolds(place, sv, c, x.next, x.inflight, None)
    requires FreshSupply(place, supply) && SessionOk(x) && x.isOpen
    ensures var r := Prepared(x, feed, mayWork, supply, required, jobs);
      SessionOk(r.s) && r.s.isOpen && Accounted(place, r.events, sv, c, r.feed.queue, r.s.next, r.s.inflight, None)
  {
    PrepareKeeps(x, feed, mayWork, supply, required, jobs);
    PrepareHolds(place, sv, c, x, feed, mayWork, supply, required, jobs);
  }

  lemma PrepareApplyKeeps(sys: System, sv: nat, c: nat, mayWork: bool, supply: Supply, jobs: Jobs)
    requires SysOk(sys) && HasConn(sys, sv, c) && sys.servers[sv].conns[c].isOpen && FreshSupply(sys.place, supply)
    ensures SysOk(PrepareApply(sys, sv, c, mayWork, supply, jobs)) && HasConn(PrepareApply(sys, sv, c, mayWork, supply, jobs), sv, c)
  {
    ConnOf(sys, sv, c);
    var server := sys.servers[sv];
    PreparedKeeps(sys.place, sv, c, server.conns[c], server.feed, mayWork, supply, server.config.required, jobs);
    ApplyKeeps(sys, sv, c, Prepared(server.conns[c], server.feed, mayWork, supply, server.config.required, jobs));
  }

  lemma WakeKeeps(sys: System, step: Step)
    requires step.Wake? && SysOk(sys) && Enabled(sys, step)
    ensures SysOk(Woken(sys, step))
  {
    ConnOf(sys, step.sv, step.c);
    PrepareApplyKeeps(sys, step.sv, step.c, step.mayWork, step.supply, step.jobs);
    AddSocketKeeps(PrepareApply(sys, step.sv, step.c, step.mayWork, step.supply, step.jobs), step.sv, step.c);
  }

  /** A write leaves the connection open, or parked in the idle set. */
  lemma WriteParks(x: Session, feed: Feed, required: bool, env: WriteEnv)
    requires x.isOpen
    ensures var r := Write(x, feed, required, env); r.parked || r.s.isOpen
  {
    var s1 := x.(wire := FlushBuffer(x.wire, env.flush));
    var (s2, feed2, _, _) := PrepareRequest(s1, feed, env.mayWork, env.supply, required, env.jobs);
    assert s2.isOpen;
  }

  lemma WriteEventKeeps(sys: System, sv: nat, c: nat, env: WriteEnv)
    requires SysOk(sys) && HasConn(sys, sv, c) && sys.servers[sv].conns[c].isOpen && FreshSupply(sys.place, env.supply)
    ensures SysOk(Apply(sys, sv, c, Write(sys.servers[sv].conns[c], sys.servers[sv].feed, sys.servers[sv].config.required, env)))
  {
    ConnOf(sys, sv, c);
    var x, feed, required := sys.servers[sv].conns[c], sys.servers[sv].feed, sys.servers[sv].config.required;
    WriteKeeps(x, feed, required, env);
    WriteHolds(sys.place, sv, c, x, feed, required, env);
    WriteParks(x, feed, required, env);
    ApplyKeeps(sys, sv, c, Write(x, feed, required, env));
  }

  lemma ReadOneParks(x: Session, feed: Feed, generation: nat, response: Response, config: Config, limit: nat)
    requires x.isOpen
    ensures var r := ReadOne(x, feed, generation, response, config, limit); r.parked || r.s.isOpen
  {
  }

  lemma {:induction false} ReadAllParks(x: Session, feed: Feed, generation: nat, responses: seq<Response>, config: Config, limit: nat)
    requires x.isOpen
    ensures var r := ReadAll(x, feed, generation, responses, config, limit); r.parked || r.s.isOpen
    decreases |responses|
  {
    if responses != [] && x.generation == generation && x.inflight != [] {
      ReadOneParks(x, feed, generation, responses[0], config, limit);
      var r := ReadOne(x, feed, generation, responses[0], config, limit);
      if r.s.isOpen {
        ReadAllParks(r.s, r.feed, generation, responses[1..], config, limit);
      }
    }
  }

  lemma ReadParks(x: Session, feed: Feed, generation: nat, config: Config, env: ReadEnv)
    requires x.isOpen
    ensures var r := Read(x, feed, generation, config, env); r.parked || r.s.isOpen
  {
    ReadAllParks(x, feed, generation, env.responses, config, env.limit);
    var r := ReadAll(x, feed, generation, env.responses, config, env.limit);
    assert PrepareRequest(r.s, r.feed, env.mayWork, env.supply, config.required, env.jobs).0.isOpen == r.s.isOpen;
  }

  lemma ReadEventKeeps(sys: System, sv: nat, c: nat, generation: nat, env: ReadEnv)
    requires SysOk(sys) && Enabled(sys, ReadEvent(sv, c, generation, env))
    ensures SysOk(Apply(sys, sv, c, Read(sys.servers[sv].conns[c], sys.servers[sv].feed, generation, sys.servers[sv].config, env)))
  {
    ConnOf(sys, sv, c);
    var x, feed, config := sys.servers[sv].conns[c], sys.servers[sv].feed, sys.servers[sv].config;
    ReadKeeps(x, feed, generation, config, env);
    ReadHolds(sys.place, sv, c, x, feed, generation, config, env);
    if x.isOpen {
      ReadParks(x, feed, generation, config, env);
    }
    ApplyKeeps(sys, sv, c, Read(x, feed, generation, config, env));
  }

  lemma ResetKeeps(sys: System, sv: nat, c: nat, retry: bool, limit: nat, jobs: Jobs)
    requires SysOk(sys) && HasConn(sys, sv, c)
    ensures var server := sys.servers[sv];
      SysOk(Apply(sys, sv, c, ResetNw(server.conns[c], server.feed, None, retry, limit, server.config.required, jobs)))
  {
    ConnOf(sys, sv, c);
    var server := sys.servers[sv];
    ResetNwHolds(sys.place, sv, c, server.conns[c], server.feed, retry, limit, server.config.required, jobs);
    FreshIsOk(limit, server.conns[c].generation + 1);
    ApplyKeeps(sys, sv, c, ResetNw(server.conns[c], server.feed, None, retry, limit, server.config.required, jobs));
  }

  // ------------------------------------------------------------------------------------------ removing a server

  /** A connection that holds nothing. */
  predicate Empty(x: Session) {
    x.next.None? && x.inflight == []
  }

  lemma NothingInHand(x: Session, feed: Feed, limit: nat, required: bool, jobs: Jobs)
    ensures ResetNw(x, feed, None, true, limit, required, jobs) == HardReset(x, feed, limit, required, jobs)
  {
  }

  lemma ResetConnKeeps(sys: System, sv: nat, c: nat, limit: nat, jobs: Jobs)
    requires SysOk(sys) && HasConn(sys, sv, c)
    ensures SysOk(ResetConn(sys, sv, c, limit, jobs))
  {
    NothingInHand(sys.servers[sv].conns[c], sys.servers[sv].feed, limit, sys.servers[sv].config.required, jobs);
    ResetKeeps(sys, sv, c, true, limit, jobs);
  }

  /** One connection emptied. */
  lemma ResetConnEmpties(sys: System, sv: nat, c: nat, limit: nat, jobs: Jobs)
    requires HasConn(sys, sv, c)
    ensures Emptied(sys, ResetConn(sys, sv, c, limit, jobs), sv, [c])
  {
    assert forall d :: d in [c] ==> d == c;
  }

  /** The same servers and connections, of which those listed are empty, and the empty ones are still empty. */
  predicate Emptied(sys: System, sys1: System, sv: nat, order: seq<nat>) {
    && sv in sys.servers && sys1.servers.Keys == sys.servers.Keys && sys1.servers[sv].conns.Keys == sys.servers[sv].conns.Keys
    && forall c :: c in sys.servers[sv].conns && (c in order || Empty(sys.servers[sv].conns[c])) ==> Empty(sys1.servers[sv].conns[c])
  }

  lemma EmptiedTwice(sys: System, sys1: System, sys2: System, sv: nat, order: seq<nat>)
    requires order != [] && Emptied(sys, sys1, sv, [order[0]]) && Emptied(sys1, sys2, sv, order[1..])
    ensures Emptied(sys, sys2, sv, order)
  {
    forall c | c in sys.servers[sv].conns && (c in order || Empty(sys.servers[sv].conns[c]))
      ensures Empty(sys2.servers[sv].conns[c])
    {
      if c in order && c != order[0] {
        assert c in order[1..];
      }
      assert c in sys1.servers[sv].conns;
    }
  }

  /** The loop of `stop` empties every connection it meets, and touches no other server. */
  lemma {:induction false} ResetConnsEmpty(sys: System, sv: nat, order: seq<nat>, limit: nat, jobs: Jobs)
    requires sv in sys.servers && AllConns(sys, sv, order)
    ensures Emptied(sys, ResetConns(sys, sv, order, limit, jobs), sv, order)
    decreases |order|
  {
    if order != [] {
      ResetConnEmpties(sys, sv, order[0], limit, jobs);
      var sys1 := ResetConn(sys, sv, order[0], limit, jobs);
      ResetConnsEmpty(sys1, sv, order[1..], limit, jobs);
      EmptiedTwice(sys, sys1, ResetConns(sys1, sv, order[1..], limit, jobs), sv, order);
    }
  }

  lemma {:induction false} ResetConnsKeeps(sys: System, sv: nat, order: seq<nat>, limit: nat, jobs: Jobs)
    requires SysOk(sys) && AllConns(sys, sv, order)
    ensures SysOk(ResetConns(sys, sv, order, limit, jobs))
    decreases |order|
  {
    if order != [] {
      var c, rest, sys1 := order[0], order[1..], ResetConn(sys, sv, order[0], limit, jobs);
      ResetConnKeeps(sys, sv, c, limit, jobs);
      assert ResetConns(sys, sv, order, limit, jobs) == ResetConns(sys1, sv, rest, limit, jobs);
      ResetConnsKeeps(sys1, sv, rest, limit, jobs);
    }
  }

  lemma EmptyHoldsNothing(place: Ledger, sv: nat, c: nat, x: Session, a: Article)
    requires Empty(x) && ConnHolds(place, sv, c, x.next, x.inflight, None) && a in place
    ensures place[a] != Unsent(sv, c) && place[a] != InFlight(sv, c)
  {
    assert Articles(x.inflight) + Only(None) == [];
  }

  /** A server with nothing in its queue and nothing on its connections is in nobody's place. */
  lemma NothingHeld(sys: System, sv: nat)
    requires SysOk(sys) && sv in sys.servers && sys.servers[sv].feed.queue == []
    requires forall c :: c in sys.servers[sv].conns ==> Empty(sys.servers[sv].conns[c])
    ensures forall a :: a in sys.place ==> sys.place[a].server != sv
  {
    forall a | a in sys.place ensures sys.place[a].server != sv {
      var p := sys.place[a];
      assert PlaceExists(sys.servers, p) && ServerOk(sys.place, sv, sys.servers[sv]);
      if p.server == sv && !p.Prefetched? {
        ConnOf(sys, sv, p.conn);
        EmptyHoldsNothing(sys.place, sv, p.conn, sys.servers[sv].conns[p.conn], a);
      }
    }
  }

  lemma DropServerKeeps(sys: System, sv: nat)
    requires SysOk(sys) && sv in sys.servers && forall a :: a in sys.place ==> sys.place[a].server != sv
    ensures SysOk(sys.(servers := sys.servers - {sv}))
  {
    var servers1 := sys.servers - {sv};
    forall a | a in sys.place ensures PlaceExists(servers1, sys.place[a]) {
      assert PlaceExists(sys.servers, sys.place[a]);
    }
    forall t | t in servers1 ensures ServerOk(sys.place, t, servers1[t]) {
      assert ServerOk(sys.place, t, sys.servers[t]);
    }
  }

  /** A restarting server is removed only when no connection is busy, and then no article is stranded in it: nothing in
      the ledger is at that server any more, and what other servers hold is still held. */
  lemma RemovalStrandsNothing(sys: System, step: Step)
    requires step.RemoveServer? && SysOk(sys) && Enabled(sys, step)
    ensures var sys1 := Removed(sys, step);
      && SysOk(sys1) && step.sv !in sys1.servers && sys1.servers.Keys == sys.servers.Keys - {step.sv}
      && forall a :: a in sys1.place ==> sys1.place[a].server != step.sv
  {
    var sv, server := step.sv, sys.servers[step.sv];
    assert ServerOk(sys.place, sv, server) && server.idle == server.conns.Keys;
    ResetConnsKeeps(sys, sv, step.order, step.limit, step.jobs);
    ResetConnsEmpty(sys, sv, step.order, step.limit, step.jobs);
    StopKeeps(ResetConns(sys, sv, step.order, step.limit, step.jobs), sv);
  }

  /** The end of `stop`, once every connection is empty. */
  lemma StopKeeps(sys: System, sv: nat)
    requires SysOk(sys) && sv in sys.servers && forall c :: c in sys.servers[sv].conns ==> Empty(sys.servers[sv].conns[c])
    ensures var (feed, events) := ResetQueue(sys.servers[sv].feed);
      var sys2 := ApplyToFeed(sys, sv, feed, events);
      && SysOk(sys2.(servers := sys2.servers - {sv}))
      && forall a :: a in sys2.place ==> sys2.place[a].server != sv
  {
    var (feed, events) := ResetQueue(sys.servers[sv].feed);
    FreeQueueKeeps(sys, sv, feed);
    NothingHeld(ApplyToFeed(sys, sv, feed, events), sv);
    DropServerKeeps(ApplyToFeed(sys, sv, feed, events), sv);
  }

  // --------------------------------------------------------------------------------------------------- every run

  function Start(): System {
    System(map[], map[], [])
  }

  /** The steps, one after the other, lead from one system to another. */
  ghost predicate Run(first: System, steps: seq<Step>, last: System)
    decreases |steps|
  {
    if steps == [] then last == first
    else Enabled(first, steps[0]) && Run(Next(first, steps[0]), steps[1..], last)
  }

  lemma NextKeeps(sys: System, step: Step)
    requires SysOk(sys) && Enabled(sys, step)
    ensures SysOk(Next(sys, step))
  {
    match step
    case AddServer(sv, threads, config, limit) => AddServerKeeps(sys, sv, threads, config, limit);
    case Connect(sv, c) => ConnectKeeps(sys, sv, c);
    case Connected(sv, c) => ConnectedKeeps(sys, sv, c);
    case Peek(sv, supply, jobs) => PeekKeeps(sys, sv, supply, jobs);
    case Wake(_, _, _, _, _) => WakeKeeps(sys, step);
    case WriteEvent(sv, c, env) => WriteEventKeeps(sys, sv, c, env);
    case ReadEvent(sv, c, generation, env) => ReadEventKeeps(sys, sv, c, generation, env);
    case Reset(sv, c, retry, limit, jobs) => ResetKeeps(sys, sv, c, retry, limit, jobs);
    case FreeQueue(sv) => FreeQueueKeeps(sys, sv, ResetQueue(sys.servers[sv].feed).0);
    case Deactivate(sv) => FreeQueueKeeps(sys, sv, ResetQueue(sys.servers[sv].feed).0.(active := false));
    case MarkRestart(sv) => MarkRestartKeeps(sys, sv);
    case RemoveServer(_, _, _, _) => RemovalStrandsNothing(sys, step);
  }

  lemma MarkRestartKeeps(sys: System, sv: nat)
    requires SysOk(sys) && sv in sys.servers
    ensures SysOk(ApplyToFeed(sys, sv, sys.servers[sv].feed.(restart := true), []))
  {
    assert ServerOk(sys.place, sv, sys.servers[sv]);
    ApplyToFeedKeeps(sys, sv, sys.servers[sv].feed.(restart := true), []);
  }

  lemma {:induction false} RunKeeps(first: System, steps: seq<Step>, last: System)
    requires SysOk(first) && Run(first, steps, last)
    ensures SysOk(last)
    decreases |steps|
  {
    if steps != [] {
      NextKeeps(first, steps[0]);
      RunKeeps(Next(first, steps[0]), steps[1..], last);
    }
  }

  /** The article is in this place. */
  ghost predicate Held(sys: System, a: Article, p: Place) {
    && PlaceExists(sys.servers, p)
    && match p
       case Prefetched(sv) => a in sys.servers[sv].feed.queue
       case Unsent(sv, c) => var next := sys.servers[sv].conns[c].next; next.Some? && next.value.article == Some(a)
       case InFlight(sv, c) => a in Articles(sys.servers[sv].conns[c].inflight)
  }

  lemma HeldIsPlace(sys: System, a: Article, p: Place)
    requires SysOk(sys)
    ensures Held(sys, a, p) <==> a in sys.place && sys.place[a] == p
  {
    if a in sys.place && sys.place[a] == p {
      assert PlaceExists(sys.servers, p);
    }
    if PlaceExists(sys.servers, p) {
      assert ServerOk(sys.place, p.server, sys.servers[p.server]);
      if !p.Prefetched? {
        ConnOf(sys, p.server, p.conn);
        var inflight := sys.servers[p.server].conns[p.conn].inflight;
        assert Articles(inflight) + Only(None) == Articles(inflight);
      }
    }
  }

  /** On every run, whatever responses, short sends, pauses, resets, expiries and restarts it is made of: an article is
      in at most one place, once; it is in one exactly when it was handed out once more than it was disposed of; and
      it was never disposed of without being held, nor handed out while it was held. */
  lemma EveryArticleInOnePlace(steps: seq<Step>, last: System)
    requires Run(Start(), steps, last)
    ensures forall a, p, q :: Held(last, a, p) && Held(last, a, q) ==> p == q
    ensures forall a, p :: Held(last, a, p) ==> Handings(last.history, a) == Endings(last.history, a) + 1
    ensures forall a :: (forall p :: !Held(last, a, p)) ==> Handings(last.history, a) == Endings(last.history, a)
    ensures forall a, n :: 0 <= n <= |last.history| ==> OnceAtATime(last.history[..n], a)
    ensures forall sv :: sv in last.servers ==> Distinct(last.servers[sv].feed.queue)
    ensures forall sv, c :: HasConn(last, sv, c) ==> Distinct(Articles(last.servers[sv].conns[c].inflight))
  {
    StartOk();
    RunKeeps(Start(), steps, last);
    forall a, p ensures Held(last, a, p) <==> a in last.place && last.place[a] == p {
      HeldIsPlace(last, a, p);
    }
    assert forall a :: a in last.place ==> Held(last, a, last.place[a]);
    forall sv | sv in last.servers ensures Distinct(last.servers[sv].feed.queue) {
      assert ServerOk(last.place, sv, last.servers[sv]);
    }
    forall sv, c | HasConn(last, sv, c) ensures Distinct(Articles(last.servers[sv].conns[c].inflight)) {
      ConnOf(last, sv, c);
      var inflight := last.servers[sv].conns[c].inflight;
      assert Articles(inflight) + Only(None) == Articles(inflight);
    }
  }

  lemma StartOk()
    ensures SysOk(Start())
  {
  }

  /** On every run the connections of each server are idle or busy, never both, every busy one has an open NNTP object,
      and connecting never waits for a permit. */
  lemma EveryRunPartitions(steps: seq<Step>, last: System, sv: nat)
    requires Run(Start(), steps, last) && sv in last.servers
    ensures Partitioned(last.servers[sv])
    ensures forall c :: c in last.servers[sv].conns && !last.servers[sv].conns[c].isOpen ==>
      last.servers[sv].conns[c].permits == last.servers[sv].conns[c].limit
  {
    StartOk();
    RunKeeps(Start(), steps, last);
    assert ServerOk(last.place, sv, last.servers[sv]);
    forall c | c in last.servers[sv].conns && !last.servers[sv].conns[c].isOpen
      ensures last.servers[sv].conns[c].permits == last.servers[sv].conns[c].limit
    {
      assert SessionOk(last.servers[sv].conns[c]);
      assert |last.servers[sv].conns[c].inflight| == 0;
    }
  }

  // ------------------------------------------------------------------------- where the promise ends: the surprise

  lemma {:induction false} FollowConcat(place: Ledger, x: seq<Event>, y: seq<Event>, s: nat, c: nat)
    ensures FollowAll(place, x + y, s, c) == FollowAll(FollowAll(place, x, s, c), y, s, c)
    decreases |x|
  {
    if x == [] {
      assert x + y == y;
    } else {
      assert (x + y)[1..] == x[1..] + y;
      FollowConcat(Follow(place, x[0], s, c), x[1..], y, s, c);
    }
  }

  /** What a 480 does to a ready connection with an article waiting. */
  lemma SurpriseRebinds(x: Session, feed: Feed, response: Response, article: Option<Article>, config: Config, limit: nat)
    requires Surprised(x.login, x.next, response.code)
    ensures var r, a := OnResponse(x, feed, response, article, config, limit), x.next.value.article.value;
      && r.s.next == Some(Request(config.userCommand, Some(a)))
      && exists before, how :: r.events == before + [Ended(a, how)]
  {
    var r, a := OnResponse(x, feed, response, article, config, limit), x.next.value.article.value;
    var gone := Discard(article, true, config.required, response.jobs);
    var waiting := Discard(Some(a), true, config.required, response.jobs);
    assert r.events == gone + waiting;
    assert waiting == [Ended(a, waiting[0].how)];
  }

  /** A response leaves every article accounted for exactly when it is not a 480 that a ready connection gets while an
      article waits: then the article is disposed of and yet still waits, now under the login command. */
  lemma AccountedExactlyUnlessSurprised(place: Ledger, s: nat, c: nat, x: Session, feed: Feed, response: Response, config: Config, limit: nat)
    requires QueueHolds(place, s, feed.queue) && ConnHolds(place, s, c, x.next, x.inflight, None)
    requires SessionOk(x) && x.inflight != []
    ensures var r := ReadOne(x, feed, x.generation, response, config, limit);
      Accounted(place, r.events, s, c, r.feed.queue, r.s.next, r.s.inflight, None) <==> !Surprised(x.login, x.next, response.code)
  {
    if !Surprised(x.login, x.next, response.code) {
      ReadOneHolds(place, s, c, x, feed, x.generation, response, config, limit);
    } else {
      var x1 := x.(inflight := x.inflight[1..], popped := x.popped + 1);
      SurpriseRebinds(x1, feed, response, x.inflight[0], config, limit);
      var r, a := ReadOne(x, feed, x.generation, response, config, limit), x.next.value.article.value;
      var before, how :| r.events == before + [Ended(a, how)];
      FollowConcat(place, before, [Ended(a, how)], s, c);
      assert [Ended(a, how)][1..] == [];
      assert a !in FollowAll(place, r.events, s, c);
    }
  }

  ghost predicate Reachable(sys: System) {
    exists steps :: Run(Start(), steps, sys)
  }

  lemma {:induction false} RunOn(first: System, steps: seq<Step>, sys: System, step: Step)
    requires Run(first, steps, sys) && Enabled(sys, step)
    ensures Run(first, steps + [step], Next(sys, step))
    decreases |steps|
  {
    var all := steps + [step];
    if steps == [] {
      assert all[1..] == [];
    } else {
      RunOn(Next(first, steps[0]), steps[1..], sys, step);
      assert all[1..] == steps[1..] + [step];
    }
  }

  lemma ReachesNext(sys: System, step: Step)
    requires Reachable(sys) && Enabled(sys, step)
    ensures Reachable(Next(sys, step))
  {
    var steps :| Run(Start(), steps, sys);
    RunOn(Start(), steps, sys, step);
  }

  function NoJobs(): Jobs {
    Jobs({}, {}, {}, {}, {})
  }

  /** One server with one connection. */
  function One(config: Config, x: Session, busy: bool, place: Ledger, history: seq<Event>): System {
    var server := Server(Feed([], true, true, true, false), config, map[1 := x], if busy then {} else {1}, if busy then {1} else {});
    System(map[0 := server], place, history)
  }

  /** A connection that needs no login, with one request at a time: its greeting, and the article prepared after it. */
  lemma GreetingPrepares(config: Config, x: Session, b: Article, env: ReadEnv)
    requires !config.needsLogin && !x.login.forceLogin && x.isOpen && x.inflight == [None] && x.next.None?
    requires env.responses == [Response(200, NoReset, NoJobs())] && env.mayWork && env.supply == Supply(true, [b], false)
    ensures var feed := Feed([], true, true, true, false);
      && Unsurprised(x, feed, x.generation, env.responses, config, env.limit)
      && ReadAll(x, feed, x.generation, env.responses, config, env.limit).events == []
      && Read(x, feed, x.generation, config, env)
         == Result(x.(login := Login(true, true, true, true, true, false), inflight := [], popped := x.popped + 1,
                      permits := x.permits + 1, next := Some(Request(ArticleCommand(feed, b, env.jobs), Some(b)))),
                   feed, [Handed(b), Assigned(b)], false)
  {
    var feed := Feed([], true, true, true, false);
    assert env.responses[1..] == [];
    var x1 := x.(login := Login(true, true, true, true, true, false), inflight := [], popped := x.popped + 1, permits := x.permits + 1);
    assert x.inflight[1..] == [];
    var l := FinishConnect(x.login, None, 200, config, NoJobs());
    assert l == LoginResult(x1.login, None, [], false);
    assert ReadOne(x, feed, x.generation, env.responses[0], config, env.limit) == Result(x1, feed, [], false);
    assert HandAll([b]) == [Handed(b)];
    assert GetArticle(feed, false, env.supply, env.jobs) == (feed, Some(b), [Handed(b)]);
    assert [Handed(b)] + [Assigned(b)] == [Handed(b), Assigned(b)];
    var y := x1.(next := Some(Request(ArticleCommand(feed, b, env.jobs), Some(b))));
    assert EndRead(x1, feed, config.required, env) == Result(y, feed, [Handed(b), Assigned(b)], false);
    assert [] + [Handed(b), Assigned(b)] == [Handed(b), Assigned(b)];
    assert ReadAll(x1, feed, x.generation, [], config, env.limit) == Result(x1, feed, [], false);
    assert ReadAll(x, feed, x.generation, env.responses, config, env.limit) == Result(x1, feed, [], false);
    assert !StoppedEarly(x, feed, x.generation, env.responses, config, env.limit);
  }

  /** A call that leaves the feed alone and the connection where it is. */
  lemma AppliesToOne(config: Config, x: Session, busy: bool, place: Ledger, history: seq<Event>, r: Result)
    requires r.feed == Feed([], true, true, true, false) && !r.parked
    ensures Apply(One(config, x, busy, place, history), 0, 1, r)
            == One(config, r.s, busy, FollowAll(place, r.events, 0, 1), history + r.events)
  {
    assert map[1 := x][1 := r.s] == map[1 := r.s];
  }

  /** Setting up a server with one connection, and connecting it. */
  lemma Connecting(config: Config, x: Session)
    requires x == InitConnect(Fresh(1, 0)).(connected := true)
    ensures Reachable(One(config, x, true, map[], []))
  {
    var feed := Feed([], true, true, true, false);
    assert Run(Start(), [], Start());
    var x0, x1 := Fresh(1, 0), InitConnect(Fresh(1, 0));
    ReachesNext(Start(), AddServer(0, 1, config, 1));
    assert Threads(1, 1) == map[1 := x0] && map[1 := x0].Keys == {1};
    assert NewServer(1, config, 1) == Server(feed, config, map[1 := x0], {1}, {});
    assert Next(Start(), AddServer(0, 1, config, 1)) == One(config, x0, false, map[], []);
    AppliesToOne(config, x0, false, map[], [], Result(x1, feed, [], false));
    ReachesNext(One(config, x0, false, map[], []), Connect(0, 1));
    assert Next(One(config, x0, false, map[], []), Connect(0, 1)) == One(config, x1, false, map[], []);
    AppliesToOne(config, x1, false, map[], [], Result(x, feed, [], false));
    ReachesNext(One(config, x1, false, map[], []), Connected(0, 1));
    assert {1} - {1} == {} && {} + {1} == {1};
    assert Next(One(config, x1, false, map[], []), Connected(0, 1)) == One(config, x, true, map[], []);
  }

  /** A write that sends the request waiting, and one that prepares the next and finds no permit. */
  lemma SendingOne(x: Session, b: Article, required: bool, env: WriteEnv)
    requires x.login.ready && x.inflight == [] && x.next.Some? && x.next.value.article == Some(b) && x.permits == 1 && x.wire.buffer == ""
    requires env.mayWork && env.jobs == NoJobs() && env.send == Takes(|x.next.value.command|)
    ensures var feed := Feed([], true, true, true, false);
      var r := Write(x, feed, required, env);
      && r == Result(r.s, feed, [Sent(b)], false) && r.s.next == None && r.s.permits == 0 && r.s.inflight == [Some(b)]
      && r.s.login == x.login && r.s.wire.buffer == "" && r.s.isOpen == x.isOpen && r.s.generation == x.generation
  {
    var feed, r := Feed([], true, true, true, false), x.next.value;
    var x1 := x.(wire := FlushBuffer(x.wire, env.flush));
    assert x1.wire == x.wire;
    assert PrepareRequest(x, feed, true, env.supply, required, NoJobs()) == (x, feed, [], true);
    assert r.command[|r.command|..] == "";
    var y := x.(permits := 0, inflight := x.inflight + [Some(b)], next := None,
                wire := Wire(x.wire.accepted + r.command[..|r.command|], "", x.wire.committed + [r]));
    assert SendNext(x, feed, required, env) == Result(y, feed, [Sent(b)], false);
    assert [] + [Sent(b)] == [Sent(b)];
  }

  lemma PreparingOne(x: Session, a: Article, required: bool, env: WriteEnv)
    requires x.login.ready && x.next.None? && x.permits == 0 && x.wire.buffer == ""
    requires env.mayWork && env.jobs == NoJobs() && env.supply == Supply(true, [a], false)
    ensures var feed := Feed([], true, true, true, false);
      var r := Write(x, feed, required, env);
      && r == Result(r.s, feed, [Handed(a), Assigned(a)], false)
      && r.s == x.(next := Some(Request(ArticleCommand(feed, a, NoJobs()), Some(a))), wire := r.s.wire)
  {
    var feed := Feed([], true, true, true, false);
    assert [a][1..] == [] && HandAll([a]) == [Handed(a)];
    assert GetArticle(feed, false, env.supply, env.jobs) == (feed, Some(a), [Handed(a)]);
    assert [Handed(a)] + [Assigned(a)] == [Handed(a), Assigned(a)];
    var x1 := x.(wire := FlushBuffer(x.wire, env.flush));
    var y := x1.(next := Some(Request(ArticleCommand(feed, a, NoJobs()), Some(a))));
    assert PrepareRequest(x1, feed, true, env.supply, required, NoJobs()) == (y, feed, [Handed(a), Assigned(a)], true);
    assert WriteRequest(x1, feed, required, env) == Result(y, feed, [Handed(a), Assigned(a)], false);
  }

  lemma PlacedUnsent(place: Ledger, a: Article)
    ensures FollowAll(place, [Handed(a), Assigned(a)], 0, 1) == place[a := Unsent(0, 1)]
  {
    assert [Handed(a), Assigned(a)][1..] == [Assigned(a)] && [Assigned(a)][1..] == [];
    var place1, place2 := place[a := Prefetched(0)], place[a := Unsent(0, 1)];
    assert place1[a := Unsent(0, 1)] == place2;
    assert FollowAll(place2, [], 0, 1) == place2;
    assert FollowAll(place1, [Assigned(a)], 0, 1) == place2;
  }

  /** An article in flight and one waiting: the state in which a 480 is a surprise, reached from the start. */
  lemma Waiting(config: Config, a: Article, b: Article)
    requires a != b && !config.needsLogin
    ensures exists x: Session, history ::
      && Reachable(One(config, x, true, map[b := InFlight(0, 1), a := Unsent(0, 1)], history))
      && x.login.ready && x.inflight == [Some(b)] && x.next.Some? && x.next.value.article == Some(a)
  {
    var feed, x0 := Feed([], true, true, true, false), InitConnect(Fresh(1, 0)).(connected := true);
    Connecting(config, x0);
    var renv := ReadEnv([Response(200, NoReset, NoJobs())], true, Supply(true, [b], false), NoJobs(), 1, false);
    GreetingPrepares(config, x0, b, renv);
    var r1 := Read(x0, feed, 0, config, renv);
    var st0, st1 := One(config, x0, true, map[], []), One(config, r1.s, true, map[b := Unsent(0, 1)], r1.events);
    AppliesToOne(config, x0, true, map[], [], r1);
    assert [] + r1.events == r1.events;
    PlacedUnsent(map[], b);
    ReachesNext(st0, ReadEvent(0, 1, 0, renv));
    assert Next(st0, ReadEvent(0, 1, 0, renv)) == st1;
    WaitingOn(config, r1.s, a, b, r1.events);
  }

  lemma WaitingOn(config: Config, x: Session, a: Article, b: Article, history: seq<Event>)
    requires a != b && Reachable(One(config, x, true, map[b := Unsent(0, 1)], history))
    requires x.login.ready && x.inflight == [] && x.next.Some? && x.next.value.article == Some(b) && x.permits == 1
    requires x.wire.buffer == "" && x.isOpen
    ensures exists x: Session, later ::
      && Reachable(One(config, x, true, map[b := InFlight(0, 1), a := Unsent(0, 1)], later))
      && x.login.ready && x.inflight == [Some(b)] && x.next.Some? && x.next.value.article == Some(a)
  {
    var feed := Feed([], true, true, true, false);
    var place, st := map[b := Unsent(0, 1)], One(config, x, true, map[b := Unsent(0, 1)], history);
    var env := WriteEnv(Takes(0), Takes(|x.next.value.command|), true, Supply(false, [], false), NoJobs(), 1);
    SendingOne(x, b, config.required, env);
    var r := Write(x, feed, config.required, env);
    AppliesToOne(config, x, true, place, history, r);
    ReachesNext(st, WriteEvent(0, 1, env));
    assert [Sent(b)][1..] == [] && place[b := InFlight(0, 1)] == map[b := InFlight(0, 1)];
    assert Next(st, WriteEvent(0, 1, env)) == One(config, r.s, true, map[b := InFlight(0, 1)], history + r.events);
    WaitingNext(config, r.s, a, b, history + r.events);
  }

  lemma WaitingNext(config: Config, x: Session, a: Article, b: Article, history: seq<Event>)
    requires a != b && Reachable(One(config, x, true, map[b := InFlight(0, 1)], history))
    requires x.login.ready && x.inflight == [Some(b)] && x.next.None? && x.permits == 0 && x.wire.buffer == "" && x.isOpen
    ensures exists x: Session, later ::
      && Reachable(One(config, x, true, map[b := InFlight(0, 1), a := Unsent(0, 1)], later))
      && x.login.ready && x.inflight == [Some(b)] && x.next.Some? && x.next.value.article == Some(a)
  {
    var feed := Feed([], true, true, true, false);
    var place, st := map[b := InFlight(0, 1)], One(config, x, true, map[b := InFlight(0, 1)], history);
    var env := WriteEnv(Takes(0), Takes(0), true, Supply(true, [a], false), NoJobs(), 1);
    PreparingOne(x, a, config.required, env);
    var r := Write(x, feed, config.required, env);
    AppliesToOne(config, x, true, place, history, r);
    ReachesNext(st, WriteEvent(0, 1, env));
    PlacedUnsent(place, a);
    assert place[a := Unsent(0, 1)] == map[b := InFlight(0, 1), a := Unsent(0, 1)];
    assert Next(st, WriteEvent(0, 1, env)) == One(config, r.s, true, place[a := Unsent(0, 1)], history + r.events);
  }

  /** A run from the start to a ready connection with one article in flight and one waiting; a 480 then disposes of both,
      and the second still waits, under the login command. */
  lemma SurpriseHappens(config: Config, a: Article, b: Article)
    requires a != b && !config.needsLogin
    ensures exists last: System ::
      && Reachable(last) && HasConn(last, 0, 1) && Surprised(last.servers[0].conns[1].login, last.servers[0].conns[1].next, 480)
      && var x := last.servers[0].conns[1];
         var r := ReadOne(x, last.servers[0].feed, x.generation, Response(480, NoReset, NoJobs()), config, x.limit);
         r.events == [Ended(b, Pooled), Ended(a, Pooled)] && r.s.next == Some(Request(config.userCommand, Some(a)))
  {
    Waiting(config, a, b);
    var x: Session, history :|
      && Reachable(One(config, x, true, map[b := InFlight(0, 1), a := Unsent(0, 1)], history))
      && x.login.ready && x.inflight == [Some(b)] && x.next.Some? && x.next.value.article == Some(a);
    var last := One(config, x, true, map[b := InFlight(0, 1), a := Unsent(0, 1)], history);
    assert HasConn(last, 0, 1) && last.servers[0].conns[1] == x;
    var response := Response(480, NoReset, NoJobs());
    var x1 := x.(inflight := x.inflight[1..], popped := x.popped + 1);
    SurpriseRebinds(x1, last.servers[0].feed, response, Some(b), config, x.limit);
    assert Discard(Some(b), true, config.required, NoJobs()) == [Ended(b, Pooled)];
    assert Discard(Some(a), true, config.required, NoJobs()) == [Ended(a, Pooled)];
    var r := ReadOne(x, last.servers[0].feed, x.generation, response, config, x.limit);
    assert r == OnResponse(x1, last.servers[0].feed, response, Some(b), config, x.limit);
    assert r.events == [Ended(b, Pooled)] + [Ended(a, Pooled)];
  }
}
