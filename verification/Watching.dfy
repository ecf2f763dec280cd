/**
 Which connections the main loop watches. It selects among the busy ones only; a request or an answer on any other would
 never be noticed. On every run no connection that has either is left idle.
 */
module Watching {
  import opened Options
  import opened Connections
  import opened Sessions
  import opened Ownership

  /** A request waits to be sent, or a response is to come. */
  predicate Working(x: Session) {
    x.next.Some? || x.inflight != []
  }

  /** A connection with its handshake done is open, and busy while it has work. */
  predicate ConnOk(x: Session, busy: bool) {
    x.connected ==> x.isOpen && (Working(x) ==> busy)
  }

  predicate Watched(server: Server) {
    forall c :: c in server.conns ==> ConnOk(server.conns[c], c in server.busy)
  }

  predicate AllWatched(servers: map<nat, Server>) {
    forall sv :: sv in servers ==> Watched(servers[sv])
  }

  /** Reads and writes come to connections that are watched; a read may also be stale. */
  predicate Selected(sys: System, step: Step) {
    match step
    case WriteEvent(sv, c, _) => HasConn(sys, sv, c) && c in sys.servers[sv].busy
    case ReadEvent(sv, c, generation, _) =>
      HasConn(sys, sv, c) && (c in sys.servers[sv].busy || sys.servers[sv].conns[c].generation != generation)
    case _ => true
  }

  // ------------------------------------------------------------------------------------------------- calls

  /** A call leaves the handshake as it is, or resets; it gives up the socket only with nothing left to do. */
  predicate Fine(s: Session, r: Result) {
    (r.s.connected ==> s.connected && r.s.isOpen == s.isOpen) && (r.parked ==> !Working(r.s))
  }

  lemma PrepareFine(s: Session, feed: Feed, mayWork: bool, supply: Supply, required: bool, jobs: Jobs)
    ensures var (t, _, _, work) := PrepareRequest(s, feed, mayWork, supply, required, jobs);
      t == s.(next := t.next) && (work <==> Working(t))
  {
  }

  lemma ResetFine(s: Session, feed: Feed, limit: nat, required: bool, jobs: Jobs, article: Option<Article>, retry: bool)
    ensures var r := HardReset(s, feed, limit, required, jobs); Fine(s, r) && !r.s.connected
    ensures var r := ResetNw(s, feed, article, retry, limit, required, jobs); Fine(s, r) && !r.s.connected
  {
  }

  lemma SendFine(s: Session, feed: Feed, required: bool, env: WriteEnv)
    requires s.next.Some? && s.permits > 0
    ensures Fine(s, SendNext(s, feed, required, env))
  {
  }

  lemma RequestFine(s: Session, feed: Feed, required: bool, env: WriteEnv)
    ensures Fine(s, WriteRequest(s, feed, required, env))
  {
    PrepareFine(s, feed, env.mayWork, env.supply, required, env.jobs);
    var (s1, feed1, _, work) := PrepareRequest(s, feed, env.mayWork, env.supply, required, env.jobs);
    if work && s1.next.Some? && s1.permits > 0 {
      SendFine(s1, feed1, required, env);
    }
  }

  lemma WriteFine(s: Session, feed: Feed, required: bool, env: WriteEnv)
    ensures Fine(s, Write(s, feed, required, env))
  {
    ResetFine(s, feed, env.limit, required, env.jobs, None, true);
    RequestFine(s.(wire := FlushBuffer(s.wire, env.flush)), feed, required, env);
  }

  lemma OneFine(s: Session, feed: Feed, generation: nat, response: Response, config: Config, limit: nat)
    ensures var r := ReadOne(s, feed, generation, response, config, limit);
      Fine(s, r) && (r.parked ==> r.s.generation == s.generation + 1)
  {
  }

  lemma {:induction false} AllFine(s: Session, feed: Feed, generation: nat, responses: seq<Response>, config: Config, limit: nat)
    ensures var r := ReadAll(s, feed, generation, responses, config, limit);
      Fine(s, r) && (r.parked ==> r.s.generation != generation)
    decreases |responses|
  {
    if responses != [] && s.generation == generation && s.inflight != [] {
      OneFine(s, feed, generation, responses[0], config, limit);
      var r := ReadOne(s, feed, generation, responses[0], config, limit);
      AllFine(r.s, r.feed, generation, responses[1..], config, limit);
    }
  }

  lemma ReadFine(s: Session, feed: Feed, generation: nat, config: Config, env: ReadEnv)
    ensures Fine(s, Read(s, feed, generation, config, env))
    ensures generation != s.generation ==> Read(s, feed, generation, config, env) == Result(s, feed, [], false)
  {
    AllFine(s, feed, generation, env.responses, config, env.limit);
    var r := ReadAll(s, feed, generation, env.responses, config, env.limit);
    PrepareFine(r.s, r.feed, env.mayWork, env.supply, config.required, env.jobs);
  }

  // ------------------------------------------------------------------------------------------------- steps

  /** A call on a busy connection, one that changes nothing, or one that leaves no work to a connection with its handshake
      done keeps all connections with work busy. */
  lemma ApplyWatched(sys: System, sv: nat, c: nat, r: Result)
    requires AllWatched(sys.servers) && HasConn(sys, sv, c) && Fine(sys.servers[sv].conns[c], r)
    requires c in sys.servers[sv].busy || r.s == sys.servers[sv].conns[c] || !r.s.connected || !Working(r.s)
    ensures AllWatched(Apply(sys, sv, c, r).servers)
  {
    var server := ServerAfter(sys.servers[sv], c, r);
    assert Watched(sys.servers[sv]);
    forall d | d in server.conns ensures ConnOk(server.conns[d], d in server.busy) {
      assert d in sys.servers[sv].conns;
      assert ConnOk(sys.servers[sv].conns[d], d in sys.servers[sv].busy);
    }
  }

  /** A call on an open connection that is then added to the busy ones. */
  lemma AddedWatched(sys: System, sv: nat, c: nat, r: Result)
    requires AllWatched(sys.servers) && HasConn(sys, sv, c) && r.s.isOpen && !r.parked
    ensures var sys1 := Apply(sys, sv, c, r);
      AllWatched(sys1.servers[sv := AddSocket(sys1.servers[sv], c)])
  {
    var server := AddSocket(ServerAfter(sys.servers[sv], c, r), c);
    assert Watched(sys.servers[sv]);
    forall d | d in server.conns ensures ConnOk(server.conns[d], d in server.busy) {
      assert d == c || (d in sys.servers[sv].conns && ConnOk(sys.servers[sv].conns[d], d in sys.servers[sv].busy));
    }
  }

  lemma FeedWatched(sys: System, sv: nat, feed: Feed, events: seq<Event>)
    requires AllWatched(sys.servers) && sv in sys.servers
    ensures AllWatched(ApplyToFeed(sys, sv, feed, events).servers)
  {
    assert Watched(sys.servers[sv]);
  }

  lemma {:induction false} ResetsWatched(sys: System, sv: nat, order: seq<nat>, limit: nat, jobs: Jobs)
    requires AllWatched(sys.servers) && AllConns(sys, sv, order)
    ensures AllWatched(ResetConns(sys, sv, order, limit, jobs).servers)
    decreases |order|
  {
    if order != [] {
      assert HasConn(sys, sv, order[0]);
      var server := sys.servers[sv];
      ResetFine(server.conns[order[0]], server.feed, limit, server.config.required, jobs, None, true);
      ApplyWatched(sys, sv, order[0], HardReset(server.conns[order[0]], server.feed, limit, server.config.required, jobs));
      ResetsWatched(ResetConn(sys, sv, order[0], limit, jobs), sv, order[1..], limit, jobs);
    }
  }

  lemma {:induction false} ThreadsAreFresh(n: nat, limit: nat, config: Config)
    ensures Watched(NewServer(n, config, limit))
  {
  }

  lemma RemovedWatched(sys: System, step: Step)
    requires AllWatched(sys.servers) && step.RemoveServer? && step.sv in sys.servers && AllConns(sys, step.sv, step.order)
    ensures AllWatched(Removed(sys, step).servers)
  {
    ResetsWatched(sys, step.sv, step.order, step.limit, step.jobs);
    var sys1 := ResetConns(sys, step.sv, step.order, step.limit, step.jobs);
    if step.sv in sys1.servers {
      var (feed, events) := ResetQueue(sys1.servers[step.sv].feed);
      FeedWatched(sys1, step.sv, feed, events);
    }
  }

  /** A call on one connection. */
  lemma CallWatched(sys: System, step: Step)
    requires AllWatched(sys.servers) && Enabled(sys, step) && Selected(sys, step)
    requires step.WriteEvent? || step.ReadEvent? || step.Reset? || step.Connect?
    ensures AllWatched(Next(sys, step).servers)
  {
    var server := sys.servers[step.sv];
    var x := server.conns[step.c];
    assert Watched(server) && ConnOk(x, step.c in server.busy);
    match step
    case WriteEvent(sv, c, env) =>
      WriteFine(x, server.feed, server.config.required, env);
      ApplyWatched(sys, sv, c, Write(x, server.feed, server.config.required, env));
    case ReadEvent(sv, c, generation, env) =>
      ReadFine(x, server.feed, generation, server.config, env);
      ApplyWatched(sys, sv, c, Read(x, server.feed, generation, server.config, env));
    case Reset(sv, c, retry, limit, jobs) =>
      ResetFine(x, server.feed, limit, server.config.required, jobs, None, retry);
      ApplyWatched(sys, sv, c, ResetNw(x, server.feed, None, retry, limit, server.config.required, jobs));
    case Connect(sv, c) =>
      ApplyWatched(sys, sv, c, Result(InitConnect(x), server.feed, [], false));
  }

  /** The two steps that make a connection busy. */
  lemma WokenWatched(sys: System, step: Step)
    requires AllWatched(sys.servers) && Enabled(sys, step) && (step.Connected? || step.Wake?)
    ensures AllWatched(Next(sys, step).servers)
  {
    var server := sys.servers[step.sv];
    var x := server.conns[step.c];
    assert Watched(server) && ConnOk(x, step.c in server.busy);
    if step.Connected? {
      AddedWatched(sys, step.sv, step.c, Result(x.(connected := true), server.feed, [], false));
    } else {
      PrepareFine(x, server.feed, step.mayWork, step.supply, server.config.required, step.jobs);
      AddedWatched(sys, step.sv, step.c, Prepared(x, server.feed, step.mayWork, step.supply, server.config.required, step.jobs));
    }
  }

  lemma StepWatched(sys: System, step: Step)
    requires AllWatched(sys.servers) && Enabled(sys, step) && Selected(sys, step)
    ensures AllWatched(Next(sys, step).servers)
  {
    match step
    case AddServer(sv, threads, config, limit) => ThreadsAreFresh(threads, limit, config);
    case Peek(sv, supply, jobs) =>
      var (feed, _, events) := GetArticle(sys.servers[sv].feed, true, supply, jobs);
      FeedWatched(sys, sv, feed, events);
    case FreeQueue(sv) =>
      var (feed, events) := ResetQueue(sys.servers[sv].feed);
      FeedWatched(sys, sv, feed, events);
    case Deactivate(sv) =>
      var (feed, events) := ResetQueue(sys.servers[sv].feed);
      FeedWatched(sys, sv, feed.(active := false), events);
    case MarkRestart(sv) => FeedWatched(sys, sv, sys.servers[sv].feed.(restart := true), []);
    case RemoveServer(_, _, _, _) => RemovedWatched(sys, step);
    case Connected(_, _) => WokenWatched(sys, step);
    case Wake(_, _, _, _, _) => WokenWatched(sys, step);
    case _ => CallWatched(sys, step);
  }

  // -------------------------------------------------------------------------------------------------- every run

  /** A run whose reads and writes come to watched connections. */
  ghost predicate SelectedRun(sys: System, steps: seq<Step>, last: System)
    decreases |steps|
  {
    if steps == [] then last == sys
    else Enabled(sys, steps[0]) && Selected(sys, steps[0]) && SelectedRun(Next(sys, steps[0]), steps[1..], last)
  }

  lemma {:induction false} RunWatched(sys: System, steps: seq<Step>, last: System)
    requires AllWatched(sys.servers) && SelectedRun(sys, steps, last)
    ensures AllWatched(last.servers)
    decreases |steps|
  {
    if steps != [] {
      StepWatched(sys, steps[0]);
      RunWatched(Next(sys, steps[0]), steps[1..], last);
    }
  }

  /** On every run each connection with its handshake done that has a request to send or an answer to wait for is busy, so
      that the main loop will hear of it. */
  lemma NoWorkIsLeftIdle(steps: seq<Step>, last: System, sv: nat, c: nat)
    requires SelectedRun(Start(), steps, last) && HasConn(last, sv, c) && last.servers[sv].conns[c].connected
    ensures last.servers[sv].conns[c].next.Some? || last.servers[sv].conns[c].inflight != [] ==> c in last.servers[sv].busy
  {
    RunWatched(Start(), steps, last);
    assert Watched(last.servers[sv]) && ConnOk(last.servers[sv].conns[c], c in last.servers[sv].busy);
  }

  // ------------------------------------------------------------------------------------------- flags of a server

  /** A server that is deactivated has nothing prefetched and hands out nothing, until it is added again. */
  lemma DeactivatedServer(sys: System, sv: nat)
    requires Enabled(sys, Step.Deactivate(sv))
    ensures var server := Next(sys, Step.Deactivate(sv)).servers[sv];
      server.feed.queue == [] && !server.feed.active && server.conns == sys.servers[sv].conns && server.busy == sys.servers[sv].busy
  {
  }

  /** A server that is to be restarted is removed once none of its connections is busy, and not before it was marked. */
  lemma RestartLeadsToRemoval(sys: System, sv: nat, order: seq<nat>, limit: nat, jobs: Jobs)
    requires Enabled(sys, MarkRestart(sv)) && sys.servers[sv].busy == {}
    requires (forall c :: c in order <==> c in sys.servers[sv].idle) && AllConns(sys, sv, order)
    ensures sys.servers[sv].feed.restart <==> Enabled(sys, RemoveServer(sv, order, limit, jobs))
    ensures var marked, remove := Next(sys, MarkRestart(sv)), RemoveServer(sv, order, limit, jobs);
      Enabled(marked, remove) && Next(marked, remove).servers.Keys == sys.servers.Keys - {sv}
  {
    var marked := Next(sys, MarkRestart(sv));
    forall c | c in order ensures HasConn(marked, sv, c) {
      assert HasConn(sys, sv, c);
    }
    ResetsLeaveServers(marked, sv, order, limit, jobs);
  }

  lemma {:induction false} ResetsLeaveServers(sys: System, sv: nat, order: seq<nat>, limit: nat, jobs: Jobs)
    requires AllConns(sys, sv, order) && sv in sys.servers
    ensures ResetConns(sys, sv, order, limit, jobs).servers.Keys == sys.servers.Keys
    decreases |order|
  {
    if order != [] {
      assert HasConn(sys, sv, order[0]);
      ResetsLeaveServers(ResetConn(sys, sv, order[0], limit, jobs), sv, order[1..], limit, jobs);
    }
  }
}
