/**
 `Server`, `NewsWrapper` and the `Downloader` methods that work on one connection, in the form the program gives them:
 objects whose fields the methods assign. Each method is proved to do exactly what its function in `Connections` says;
 what every run of those functions keeps is proved in `Sessions`, `Duplex`, `LifeCycle` and `Ownership`.

 Ghost fields record what the program does not store: the bytes the socket took, the commands that were sent, and what
 became of the articles.
 */
module NewsWrappers {
  import opened Options
  import opened Connections
  import LifeCycle
  import Sessions

  class Server {
    const config: Config
    var active: bool
    var restart: bool
    var haveBody: bool
    var haveStat: bool
    var articleQueue: seq<Article>
    var idleThreads: set<NewsWrapper>
    var busyThreads: set<NewsWrapper>
    ghost var log: seq<Event>

    constructor (config: Config, threads: nat, limit: nat)
      ensures this.config == config && State() == Feed([], true, true, true, false) && log == []
      ensures busyThreads == {} && |idleThreads| == threads
      ensures forall nw :: nw in idleThreads ==> fresh(nw) && nw.server == this && nw.Model() == Fresh(limit, 0)
    {
      this.config := config;
      active, restart, haveBody, haveStat := true, false, true, true;
      articleQueue, idleThreads, busyThreads, log := [], {}, {}, [];
      new;
      for i := 0 to threads
        invariant State() == Feed([], true, true, true, false) && log == [] && busyThreads == {} && |idleThreads| == i
        invariant forall nw :: nw in idleThreads ==> fresh(nw) && nw.server == this && nw.Model() == Fresh(limit, 0)
      {
        var nw := new NewsWrapper(this, limit, 0);
        idleThreads := idleThreads + {nw};
      }
    }

    ghost function State(): Feed
      reads this
    {
      Feed(articleQueue, haveStat, haveBody, active, restart)
    }

    /** `Downloader.decode`. */
    method Decode(a: Article, jobs: Jobs)
      modifies this`log
      ensures log == old(log) + [Ended(a, DecodeEnd(a, jobs))]
    {
      if a in jobs.settled {
        log := log + [Ended(a, Registered)];
      } else {
        log := log + [Ended(a, Pooled)];
      }
    }

    method GetArticle(peek: bool, supply: Supply, jobs: Jobs) returns (article: Option<Article>)
      modifies this`articleQueue, this`log
      ensures var (feed, found, events) := Connections.GetArticle(old(State()), peek, supply, jobs);
        State() == feed && article == found && log == old(log) + events
    {
      article := None;
      if articleQueue != [] {
        article := Some(articleQueue[0]);
        if !peek {
          articleQueue := articleQueue[1..];
        }
      } else if supply.searchDue {
        articleQueue := supply.found;
        log := log + HandAll(supply.found);
        if articleQueue != [] {
          var first := articleQueue[0];
          if !peek {
            articleQueue := articleQueue[1..];
          }
          if supply.expired {
            if !peek {
              Decode(first, jobs);
            }
            DecodeAll(jobs);
          } else {
            article := Some(first);
          }
        }
      }
    }

    /** The loop that takes expired articles off the end of the queue. */
    method DecodeAll(jobs: Jobs)
      modifies this`articleQueue, this`log
      ensures articleQueue == [] && log == old(log) + DecodeFromEnd(old(articleQueue), jobs)
    {
      ghost var target := log + DecodeFromEnd(articleQueue, jobs);
      while articleQueue != []
        invariant log + DecodeFromEnd(articleQueue, jobs) == target
        decreases |articleQueue|
      {
        var last := articleQueue[|articleQueue| - 1];
        articleQueue := articleQueue[..|articleQueue| - 1];
        Decode(last, jobs);
      }
    }

    method ResetArticleQueue()
      modifies this`articleQueue, this`log
      ensures State() == ResetQueue(old(State())).0 && log == old(log) + ResetQueue(old(State())).1
    {
      ghost var target := log + PoolAll(articleQueue);
      while articleQueue != []
        invariant log + PoolAll(articleQueue) == target
        decreases |articleQueue|
      {
        log := log + [Ended(articleQueue[0], Pooled)];
        articleQueue := articleQueue[1..];
      }
    }

    method Deactivate()
      modifies this`active, this`articleQueue, this`log
      ensures State() == ResetQueue(old(State())).0.(active := false) && log == old(log) + ResetQueue(old(State())).1
    {
      active := false;
      ResetArticleQueue();
    }

    /** `stop`: `order` is the order in which the set of idle connections was gone through, `was` what they were. */
    method Stop(newLimit: nat, jobs: Jobs) returns (ghost order: seq<NewsWrapper>, ghost was: map<NewsWrapper, Session>)
      requires idleThreads !! busyThreads && forall nw :: nw in idleThreads ==> nw.server == this
      modifies this`idleThreads, this`busyThreads, this`articleQueue, this`log, idleThreads
      ensures was.Keys == old(idleThreads) && forall nw :: nw in old(idleThreads) ==> was[nw] == old(nw.Model())
      ensures NoRepeats(order) && forall nw :: nw in order <==> nw in old(idleThreads)
      ensures idleThreads == {} && busyThreads == old(busyThreads) && State() == ResetQueue(old(State())).0
      ensures forall nw :: nw in old(idleThreads) ==> nw.Model() == Fresh(newLimit, was[nw].generation + 1)
      ensures log == old(log) + StopEvents(order, was, config.required, jobs) + PoolAll(old(articleQueue))
    {
      was := map nw | nw in idleThreads :: nw.Model();
      order := ResetIdle(newLimit, jobs, was);
      idleThreads := {};
      ResetArticleQueue();
    }

    /** The loop of `stop`. */
    method ResetIdle(newLimit: nat, jobs: Jobs, ghost was: map<NewsWrapper, Session>) returns (ghost order: seq<NewsWrapper>)
      requires idleThreads !! busyThreads && was.Keys == idleThreads
      requires forall nw :: nw in idleThreads ==> nw.server == this && was[nw] == nw.Model()
      modifies this`idleThreads, this`busyThreads, this`log, idleThreads
      ensures State() == old(State()) && idleThreads == old(idleThreads) && busyThreads == old(busyThreads)
      ensures NoRepeats(order) && forall nw :: nw in order <==> nw in idleThreads
      ensures forall nw :: nw in idleThreads ==> nw.Model() == Fresh(newLimit, was[nw].generation + 1)
      ensures log == old(log) + StopEvents(order, was, config.required, jobs)
    {
      ghost var start, log0, idle0, busy0 := State(), log, idleThreads, busyThreads;
      var todo := idleThreads;
      order := [];
      while todo != {}
        invariant HalfReset(todo, was, newLimit)
        invariant State() == start && idleThreads == idle0 && busyThreads == busy0
        invariant GoneThrough(order, was.Keys, todo)
        invariant log == log0 + StopEvents(order, was, config.required, jobs)
        decreases todo
      {
        var nw :| nw in todo;
        StopOneMore(order, nw, was, todo, log0, start, newLimit, config.required, jobs);
        ResetOne(nw, todo, newLimit, jobs, was);
        todo := todo - {nw};
        order := order + [nw];
      }
    }

    /** The idle connections, of which those still to do are what they were. */
    ghost predicate HalfReset(todo: set<NewsWrapper>, was: map<NewsWrapper, Session>, newLimit: nat)
      reads this, idleThreads
    {
      && todo <= idleThreads && idleThreads !! busyThreads && was.Keys == idleThreads
      && forall nw :: nw in idleThreads ==>
           nw.server == this && nw.Model() == if nw in todo then was[nw] else Fresh(newLimit, was[nw].generation + 1)
    }

    /** Resetting one idle connection leaves the others as they are. */
    method ResetOne(nw: NewsWrapper, ghost todo: set<NewsWrapper>, newLimit: nat, jobs: Jobs, ghost was: map<NewsWrapper, Session>)
      requires nw in todo && HalfReset(todo, was, newLimit)
      modifies this`idleThreads, this`busyThreads, this`log, nw
      ensures State() == old(State()) && idleThreads == old(idleThreads) && busyThreads == old(busyThreads)
      ensures HalfReset(todo - {nw}, was, newLimit)
      ensures log == old(log) + Connections.HardReset(was[nw], State(), newLimit, config.required, jobs).events
    {
      nw.HardReset(newLimit, jobs);
    }
  }

  ghost predicate NoRepeats(order: seq<NewsWrapper>) {
    forall i, j :: 0 <= i < j < |order| ==> order[i] != order[j]
  }

  /** The set, but for what is still to do, was gone through in this order. */
  ghost predicate GoneThrough(order: seq<NewsWrapper>, all: set<NewsWrapper>, todo: set<NewsWrapper>) {
    NoRepeats(order) && (forall nw :: nw in order ==> nw in all && nw !in todo) && forall nw :: nw in all && nw !in todo ==> nw in order
  }

  /** The events of resetting one connection after the other. */
  ghost function StopEvents(order: seq<NewsWrapper>, was: map<NewsWrapper, Session>, required: bool, jobs: Jobs): seq<Event>
    requires forall nw :: nw in order ==> nw in was
  {
    if order == [] then []
    else
      var x := was[order[|order| - 1]];
      var unsent := if x.next.Some? then Connections.Discard(x.next.value.article, true, required, jobs) else [];
      StopEvents(order[..|order| - 1], was, required, jobs) + (unsent + DrainEvents(x.inflight, required, jobs))
  }

  lemma StopOneMore(order: seq<NewsWrapper>, nw: NewsWrapper, was: map<NewsWrapper, Session>, todo: set<NewsWrapper>,
                    before: seq<Event>, feed: Feed, limit: nat, required: bool, jobs: Jobs)
    requires nw in was && nw in todo && GoneThrough(order, was.Keys, todo)
    ensures GoneThrough(order + [nw], was.Keys, todo - {nw})
    ensures before + StopEvents(order + [nw], was, required, jobs)
            == before + StopEvents(order, was, required, jobs) + Connections.HardReset(was[nw], feed, limit, required, jobs).events
  {
    assert (order + [nw])[..|order|] == order;
    var last := Connections.HardReset(was[nw], feed, limit, required, jobs).events;
    assert StopEvents(order + [nw], was, required, jobs) == StopEvents(order, was, required, jobs) + last;
    assert before + (StopEvents(order, was, required, jobs) + last) == before + StopEvents(order, was, required, jobs) + last;
  }

  /** What went over the wire and through the response queue since the last reset. */
  datatype Trace = Trace(accepted: string, committed: seq<Request>, popped: nat, leaked: nat)

  /** A connection with its server: everything a call can change. */
  datatype Snapshot = Snapshot(s: Session, feed: Feed, log: seq<Event>, idle: set<NewsWrapper>, busy: set<NewsWrapper>)

  /** What the result of a call makes of it. */
  function After(nw: NewsWrapper, before: Snapshot, r: Result): Snapshot {
    Snapshot(r.s, r.feed, before.log + r.events,
             if r.parked then before.idle + {nw} else before.idle, if r.parked then before.busy - {nw} else before.busy)
  }

  class NewsWrapper {
    const server: Server
    var isOpen: bool                          // nntp is not None
    var connected: bool
    var ready: bool
    var userSent: bool
    var userOk: bool
    var passSent: bool
    var passOk: bool
    var forceLogin: bool
    var nextRequest: Option<Request>
    var limit: nat
    var concurrentRequests: nat               // the free permits of the semaphore
    var responseQueue: seq<Option<Article>>
    var writeBuffer: string
    var generation: nat
    ghost var trace: Trace

    constructor (server: Server, limit: nat, generation: nat)
      ensures this.server == server && Model() == Fresh(limit, generation)
    {
      this.server := server;
      isOpen, connected := false, false;
      ready, userSent, userOk, passSent, passOk, forceLogin := false, false, false, false, false, false;
      nextRequest, responseQueue := None, [];
      this.limit, concurrentRequests, this.generation := limit, limit, generation;
      writeBuffer, trace := "", Trace("", [], 0, 0);
    }

    ghost function LoginState(): Login
      reads this
    {
      Login(ready, userSent, userOk, passSent, passOk, forceLogin)
    }

    ghost function Model(): Session
      reads this
    {
      Session(isOpen, connected, LoginState(), nextRequest, responseQueue, limit, concurrentRequests, generation,
              Wire(trace.accepted, writeBuffer, trace.committed), trace.popped, trace.leaked)
    }

    ghost function All(): Snapshot
      reads this, server
    {
      Snapshot(Model(), server.State(), server.log, server.idleThreads, server.busyThreads)
    }

    /** Permits, response queue, wire and login are exact. */
    ghost predicate InOrder()
      reads this
    {
      Sessions.SessionOk(Model())
    }

    method InitConnect()
      requires concurrentRequests > 0
      modifies this
      ensures Model() == Connections.InitConnect(old(Model()))
      ensures old(InOrder() && !isOpen) ==> InOrder()
    {
      isOpen := true;
      responseQueue := responseQueue + [None];
      concurrentRequests := concurrentRequests - 1;
    }

    /** `Downloader.add_socket`. */
    method AddSocket()
      modifies server`idleThreads, server`busyThreads
      ensures isOpen ==> server.idleThreads == old(server.idleThreads) - {this}
      ensures isOpen ==> server.busyThreads == old(server.busyThreads) + {this}
      ensures !isOpen ==> server.idleThreads == old(server.idleThreads) && server.busyThreads == old(server.busyThreads)
    {
      if isOpen {
        server.idleThreads := server.idleThreads - {this};
        server.busyThreads := server.busyThreads + {this};
      }
    }

    /** `Downloader.remove_socket`. */
    method RemoveSocket()
      modifies server`idleThreads, server`busyThreads
      ensures isOpen ==> server.idleThreads == old(server.idleThreads) + {this}
      ensures isOpen ==> server.busyThreads == old(server.busyThreads) - {this}
      ensures !isOpen ==> server.idleThreads == old(server.idleThreads) && server.busyThreads == old(server.busyThreads)
    {
      if isOpen {
        server.busyThreads := server.busyThreads - {this};
        server.idleThreads := server.idleThreads + {this};
      }
    }

    method Discard(article: Option<Article>, retry: bool, jobs: Jobs)
      modifies server`log
      ensures server.log == old(server.log) + Connections.Discard(article, retry, server.config.required, jobs)
    {
      if article.Some? {
        var a := article.value;
        if a !in jobs.removed {
          if !retry || (!server.config.required && a in jobs.exhausted) {
            server.Decode(a, jobs);
          } else {
            server.log := server.log + [Ended(a, Pooled)];
          }
        } else {
          server.log := server.log + [Ended(a, Dropped)];
        }
      }
    }

    method QueueCommand(command: string, article: Option<Article>, jobs: Jobs)
      modifies this`nextRequest, server`log
      ensures var (next, events) := Connections.QueueCommand(old(nextRequest), command, article, server.config.required, jobs);
        nextRequest == next && server.log == old(server.log) + events
    {
      var tag := article;
      if nextRequest.Some? {
        tag := nextRequest.value.article;
        Discard(tag, true, jobs);
      }
      nextRequest := Some(Request(command, tag));
    }

    method QueueArticle(a: Article, jobs: Jobs)
      modifies this`nextRequest, server`log
      ensures var command := ArticleCommand(server.State(), a, jobs);
        var (next, events) := Connections.QueueCommand(old(nextRequest), command, Some(a), server.config.required, jobs);
        nextRequest == next && server.log == old(server.log) + events
    {
      var command :=
        if a in jobs.precheck then (if server.haveStat then "STAT" else "HEAD")
        else if server.haveBody then "BODY" else "ARTICLE";
      command := command + " <" + a.messageId + ">\r\n";
      QueueCommand(command, Some(a), jobs);
    }

    method ClearLogin(force: bool)
      modifies this`ready, this`userSent, this`userOk, this`passSent, this`passOk, this`forceLogin
      ensures LoginState() == Login(false, false, false, false, false, force)
    {
      ready, userSent, userOk, passSent, passOk, forceLogin := false, false, false, false, false, force;
    }

    /** The beginning of `finish_connect`: no login is needed, or one is forced. */
    method BeginLogin(code: int)
      modifies this`ready, this`userSent, this`userOk, this`passSent, this`passOk, this`forceLogin
      ensures LoginState() == LoginBegun(old(LoginState()), code, server.config)
    {
      if !(server.config.needsLogin || forceLogin) {
        ready, userSent, userOk, passSent, passOk := true, true, true, true, true;
      }
      if code == 480 {
        ClearLogin(true);
      }
    }

    /** `failed` stands for the `NNTPPermanentError` it raises. */
    method FinishConnect(code: int, jobs: Jobs) returns (failed: bool)
      modifies this`ready, this`userSent, this`userOk, this`passSent, this`passOk, this`forceLogin, this`nextRequest, server`log
      ensures var l := Connections.FinishConnect(old(LoginState()), old(nextRequest), code, server.config, jobs);
        LoginState() == l.login && nextRequest == l.next && server.log == old(server.log) + l.events && failed == l.failed
    {
      BeginLogin(code);
      if code == 400 || code == 500 || code == 502 {
        return true;
      }
      failed := ContinueLogin(code, jobs);
    }

    method ContinueLogin(code: int, jobs: Jobs) returns (failed: bool)
      modifies this`ready, this`userSent, this`userOk, this`passSent, this`passOk, this`nextRequest, server`log
      ensures var l := LoginContinued(old(LoginState()), old(nextRequest), code, server.config, jobs);
        LoginState() == l.login && nextRequest == l.next && server.log == old(server.log) + l.events && failed == l.failed
    {
      if !userSent {
        QueueCommand(server.config.userCommand, None, jobs);
        userSent := true;
      } else if !userOk {
        if code == 381 {
          userOk := true;
        } else if code == 281 {
          userOk, passSent, passOk, ready := true, true, true, true;
        }
      }
      failed := false;
      if userOk && !passSent {
        QueueCommand(server.config.passCommand, None, jobs);
        passSent := true;
      } else if userOk && !passOk {
        if code != 281 {
          failed := true;
        } else {
          ready := true;
        }
      }
    }

    /** The loop of `hard_reset` over the response queue. */
    method DrainResponses(jobs: Jobs)
      modifies this`responseQueue, server`log
      ensures responseQueue == [] && server.log == old(server.log) + DrainEvents(old(responseQueue), server.config.required, jobs)
    {
      ghost var target := server.log + DrainEvents(responseQueue, server.config.required, jobs);
      while responseQueue != []
        invariant server.log + DrainEvents(responseQueue, server.config.required, jobs) == target
        decreases |responseQueue|
      {
        var article := responseQueue[0];
        responseQueue := responseQueue[1..];
        Discard(article, true, jobs);
      }
    }

    /** `__init__`, when a connection is reset. */
    method Reinitialize(newLimit: nat)
      modifies this
      ensures Model() == Fresh(newLimit, old(generation) + 1)
    {
      isOpen, connected := false, false;
      ClearLogin(false);
      nextRequest, responseQueue := None, [];
      limit, concurrentRequests, generation := newLimit, newLimit, generation + 1;
      writeBuffer, trace := "", Trace("", [], 0, 0);
    }

    method HardReset(newLimit: nat, jobs: Jobs)
      modifies this, server`log, server`idleThreads, server`busyThreads
      ensures All() == After(this, old(All()), Connections.HardReset(old(Model()), old(server.State()), newLimit, server.config.required, jobs))
    {
      ghost var before := All();
      ghost var unsent := if nextRequest.Some? then Connections.Discard(nextRequest.value.article, true, server.config.required, jobs) else [];
      ghost var drained := DrainEvents(responseQueue, server.config.required, jobs);
      if nextRequest.Some? {
        Discard(nextRequest.value.article, true, jobs);
        nextRequest := None;
      }
      DrainResponses(jobs);
      assert server.log == before.log + (unsent + drained);
      RemoveSocket();
      Reinitialize(newLimit);
    }

    /** The next article becomes the next request, if there is one. */
    method RequestArticle(supply: Supply, jobs: Jobs) returns (found: bool)
      requires nextRequest.None?
      modifies this`nextRequest, server`articleQueue, server`log
      ensures var (feed, next, events) := Connections.GetArticle(old(server.State()), false, supply, jobs);
        && server.State() == feed && found == next.Some?
        && nextRequest == (if found then Some(Request(ArticleCommand(feed, next.value, jobs), next)) else None)
        && server.log == old(server.log) + (if found then events + [Assigned(next.value)] else events)
    {
      var article := server.GetArticle(false, supply, jobs);
      found := article.Some?;
      if found {
        QueueArticle(article.value, jobs);
        server.log := server.log + [Assigned(article.value)];
      }
    }

    /** The waiting request is given back if it is for an article. */
    method DropRequest(jobs: Jobs)
      modifies this`nextRequest, server`log
      ensures var article := if old(nextRequest).Some? then old(nextRequest).value.article else None;
        && nextRequest == (if article.Some? then None else old(nextRequest))
        && server.log == old(server.log) + Connections.Discard(article, true, server.config.required, jobs)
    {
      if nextRequest.Some? && nextRequest.value.article.Some? {
        Discard(nextRequest.value.article, true, jobs);
        nextRequest := None;
      }
    }

    method PrepareRequest(mayWork: bool, supply: Supply, jobs: Jobs) returns (work: bool)
      modifies this`nextRequest, server`articleQueue, server`log
      ensures var (s, feed, events, w) := Connections.PrepareRequest(old(Model()), old(server.State()), mayWork, supply, server.config.required, jobs);
        Model() == s && server.State() == feed && server.log == old(server.log) + events && work == w
    {
      if ready || responseQueue == [] {
        if server.active && !server.restart && mayWork {
          if nextRequest.None? {
            var found := RequestArticle(supply, jobs);
            if found {
              return true;
            }
          }
        } else {
          DropRequest(jobs);
        }
      }
      work := nextRequest.Some? || responseQueue != [];
    }

    /** With a permit taken, the request turns out to be for a job that was removed or paused. */
    method SkipRequest(jobs: Jobs)
      requires nextRequest.Some? && concurrentRequests > 0
      modifies this`concurrentRequests, this`nextRequest, server`log
      ensures Model() == old(Model()).(next := None)
      ensures server.log == old(server.log) + Connections.Discard(old(nextRequest.value.article), true, server.config.required, jobs)
    {
      concurrentRequests := concurrentRequests - 1;
      Discard(nextRequest.value.article, true, jobs);
      concurrentRequests := concurrentRequests + 1;
      nextRequest := None;
    }

    /** With a permit taken, the socket takes the first bytes; the others wait in the buffer. */
    method CommitRequest(sent: nat)
      requires nextRequest.Some? && sent <= |nextRequest.value.command| && concurrentRequests > 0
      modifies this`concurrentRequests, this`writeBuffer, this`trace, this`responseQueue, this`nextRequest, server`log
      ensures var s, request := old(Model()), old(nextRequest.value);
        Model() == s.(permits := s.permits - 1, inflight := s.inflight + [request.article], next := None,
                      wire := Wire(s.wire.accepted + request.command[..sent], request.command[sent..], s.wire.committed + [request]))
      ensures server.log == old(server.log) + (if old(nextRequest.value.article).Some? then [Sent(old(nextRequest.value.article.value))] else [])
    {
      concurrentRequests := concurrentRequests - 1;
      var Request(command, article) := nextRequest.value;
      writeBuffer := command[sent..];
      trace := trace.(accepted := trace.accepted + command[..sent], committed := trace.committed + [nextRequest.value]);
      responseQueue := responseQueue + [article];
      nextRequest := None;
      if article.Some? {
        server.log := server.log + [Sent(article.value)];
      }
    }

    /** The permit is taken, and the send raises would-block. */
    method BlockRequest()
      requires concurrentRequests > 0
      modifies this`concurrentRequests, this`trace
      ensures var s := old(Model()); Model() == s.(permits := s.permits - 1, leaked := s.leaked + 1)
    {
      concurrentRequests := concurrentRequests - 1;
      trace := trace.(leaked := trace.leaked + 1);
    }

    /** The end of `write`: a permit is free and a request waits. */
    method SendNext(env: WriteEnv)
      requires nextRequest.Some? && concurrentRequests > 0
      modifies this, server`log, server`idleThreads, server`busyThreads
      ensures All() == After(this, old(All()), Connections.SendNext(old(Model()), old(server.State()), server.config.required, env))
    {
      var Request(command, article) := nextRequest.value;
      if article.Some? && (article.value in env.jobs.removed || article.value in env.jobs.paused) {
        SkipRequest(env.jobs);
      } else if env.send.WouldBlock? {
        BlockRequest();
      } else if env.send.Breaks? {
        Downloader.ResetNw(this, None, true, env.limit, env.jobs);
      } else {
        CommitRequest(TakenOf(env.send, command));
      }
    }

    method Write(env: WriteEnv)
      requires isOpen
      modifies this, server`log, server`idleThreads, server`busyThreads, server`articleQueue
      ensures All() == After(this, old(All()), Connections.Write(old(Model()), old(server.State()), server.config.required, env))
      ensures old(InOrder()) ==> InOrder()
    {
      ghost var before := All();
      if InOrder() {
        Sessions.WriteKeeps(before.s, before.feed, server.config.required, env);
      }
      if writeBuffer != "" {
        if env.flush.WouldBlock? {
          return;
        }
        if env.flush.Breaks? {
          Downloader.ResetNw(this, None, true, env.limit, env.jobs);
          return;
        }
      }
      var sent := TakenOf(env.flush, writeBuffer);
      trace := trace.(accepted := trace.accepted + writeBuffer[..sent]);
      writeBuffer := writeBuffer[sent..];
      if writeBuffer != "" {
        return;
      }
      WriteRequest(env);
    }

    method WriteRequest(env: WriteEnv)
      requires isOpen
      modifies this, server`log, server`idleThreads, server`busyThreads, server`articleQueue
      ensures All() == After(this, old(All()), Connections.WriteRequest(old(Model()), old(server.State()), server.config.required, env))
    {
      ghost var before := All();
      var work := PrepareRequest(env.mayWork, env.supply, env.jobs);
      ghost var between := All();
      ghost var (s1, feed1, events, _) := Connections.PrepareRequest(before.s, before.feed, env.mayWork, env.supply, server.config.required, env.jobs);
      assert between == After(this, before, Result(s1, feed1, events, false));
      if work {
        if nextRequest.Some? && concurrentRequests > 0 {
          SendNext(env);
          AfterTwice(this, before, Result(s1, feed1, events, false), Connections.SendNext(s1, feed1, server.config.required, env));
        }
      } else {
        RemoveSocket();
      }
    }

    /** The answer to a request for an article, when it is not about the login. */
    method OnArticleResponse(response: Response, a: Article, newLimit: nat)
      modifies this, server`log, server`idleThreads, server`busyThreads, server`haveStat, server`haveBody
      ensures All() == After(this, old(All()), ArticleResponse(old(Model()), old(server.State()), response, a, server.config, newLimit))
    {
      var code := response.code;
      if code == 220 || code == 222 || code == 223 || code == 411 || code == 423 || code == 430 || code == 451 {
        server.Decode(a, response.jobs);
      } else if code == 500 {
        if a in response.jobs.precheck {
          server.haveStat := false;
        } else {
          server.haveBody := false;
        }
        Discard(Some(a), true, response.jobs);
      } else {
        Downloader.ResetNw(this, Some(a), true, newLimit, response.jobs);
      }
    }

    /** A response that is about the login: the article it came for, if any, goes back. */
    method OnLoginResponse(response: Response, article: Option<Article>, newLimit: nat)
      modifies this, server`log, server`idleThreads, server`busyThreads, server`active, server`articleQueue
      ensures All() == After(this, old(All()), LoginResponse(old(Model()), old(server.State()), response, article, server.config, newLimit))
    {
      ghost var before := All();
      Discard(article, true, response.jobs);
      ghost var between := All();
      ghost var gone := Connections.Discard(article, true, server.config.required, response.jobs);
      assert between == After(this, before, Result(before.s, before.feed, gone, false));
      var ok := Downloader.FinishConnectNw(this, response, newLimit);
      AfterTwice(this, before, Result(before.s, before.feed, gone, false),
                 Connections.FinishConnectNw(before.s, before.feed, response, server.config, newLimit).0);
    }

    method ReleasePermit()
      modifies this`concurrentRequests
      ensures All() == var before := old(All()); before.(s := before.s.(permits := before.s.permits + 1))
    {
      concurrentRequests := concurrentRequests + 1;
    }

    method OnResponse(response: Response, article: Option<Article>, newLimit: nat)
      modifies this, server`log, server`idleThreads, server`busyThreads, server`haveStat, server`haveBody, server`active, server`articleQueue
      ensures All() == After(this, old(All()), Connections.OnResponse(old(Model()), old(server.State()), response, article, server.config, newLimit))
    {
      ghost var before := All();
      ghost var r := Connections.OnResponse(before.s, before.feed, response, article, server.config, newLimit);
      ReleasePermit();
      AfterForgets(this, before, All().s, r);
      if IsLoginResponse(ready, response.code, article) {
        OnLoginResponse(response, article, newLimit);
      } else {
        OnArticleResponse(response, article.value, newLimit);
      }
    }

    method PopResponse() returns (article: Option<Article>)
      requires responseQueue != []
      modifies this`responseQueue, this`trace
      ensures article == old(responseQueue[0])
      ensures var s := old(Model()); Model() == s.(inflight := s.inflight[1..], popped := s.popped + 1)
    {
      article := responseQueue[0];
      responseQueue := responseQueue[1..];
      trace := trace.(popped := trace.popped + 1);
    }

    /** One turn of the response loop; false when the loop ends here. */
    method ReadOne(expected: nat, response: Response, newLimit: nat) returns (again: bool)
      modifies this, server`log, server`idleThreads, server`busyThreads, server`haveStat, server`haveBody, server`active, server`articleQueue
      ensures again == (old(generation) == expected && old(responseQueue) != [])
      ensures All() == After(this, old(All()), Connections.ReadOne(old(Model()), old(server.State()), expected, response, server.config, newLimit))
    {
      if generation != expected || responseQueue == [] {
        return false;
      }
      ghost var before := All();
      var article := PopResponse();
      assert All() == before.(s := before.s.(inflight := before.s.inflight[1..], popped := before.s.popped + 1));
      OnResponse(response, article, newLimit);
      again := true;
    }

    /** The response loop; false when it returned from inside. */
    method ReadAll(expected: nat, responses: seq<Response>, newLimit: nat) returns (ended: bool)
      modifies this, server`log, server`idleThreads, server`busyThreads, server`haveStat, server`haveBody, server`active, server`articleQueue
      ensures All() == After(this, old(All()), Connections.ReadAll(old(Model()), old(server.State()), expected, responses, server.config, newLimit))
      ensures ended == !StoppedEarly(old(Model()), old(server.State()), expected, responses, server.config, newLimit)
    {
      ghost var start := All();
      ghost var whole := Connections.ReadAll(start.s, start.feed, expected, responses, server.config, newLimit);
      ghost var stopped := StoppedEarly(start.s, start.feed, expected, responses, server.config, newLimit);
      var k := 0;
      while k < |responses|
        invariant k <= |responses|
        invariant After(this, start, whole)
                  == After(this, All(), Connections.ReadAll(Model(), server.State(), expected, responses[k..], server.config, newLimit))
        invariant stopped == StoppedEarly(Model(), server.State(), expected, responses[k..], server.config, newLimit)
      {
        ghost var before := All();
        assert responses[k..][0] == responses[k] && responses[k..][1..] == responses[k + 1..];
        ReadAllMore(this, before, expected, responses[k..], server.config, newLimit);
        var again := ReadOne(expected, responses[k], newLimit);
        if !again {
          assert All() == before;
          return false;
        }
        k := k + 1;
      }
      assert responses[k..] == [];
      ended := true;
    }

    /** The end of `read`: the next request is prepared, or the socket is removed. */
    method EndRead(env: ReadEnv)
      modifies this`nextRequest, server`log, server`idleThreads, server`busyThreads, server`articleQueue
      ensures All() == After(this, old(All()), Connections.EndRead(old(Model()), old(server.State()), server.config.required, env))
    {
      var work := PrepareRequest(env.mayWork, env.supply, env.jobs);
      if !work && !env.morePending {
        RemoveSocket();
      }
    }

    method Read(expected: nat, env: ReadEnv)
      modifies this, server`log, server`idleThreads, server`busyThreads, server`haveStat, server`haveBody, server`active, server`articleQueue
      ensures All() == After(this, old(All()), Connections.Read(old(Model()), old(server.State()), expected, server.config, env))
      ensures old(InOrder() && Sessions.Unsurprised(Model(), server.State(), expected, env.responses, server.config, env.limit)) ==> InOrder()
    {
      ReadKeepsOrder(All(), expected, server.config, env);
      if isOpen && env.responses != [] {
        ghost var before := All();
        var ended := ReadAll(expected, env.responses, env.limit);
        if generation == expected && ended {
          ghost var r := Connections.ReadAll(before.s, before.feed, expected, env.responses, server.config, env.limit);
          EndRead(env);
          AfterTwice(this, before, r, Connections.EndRead(r.s, r.feed, server.config.required, env));
        }
      }
    }
  }

  lemma ReadKeepsOrder(before: Snapshot, expected: nat, config: Config, env: ReadEnv)
    ensures Sessions.SessionOk(before.s) && Sessions.Unsurprised(before.s, before.feed, expected, env.responses, config, env.limit) ==>
              Sessions.SessionOk(Connections.Read(before.s, before.feed, expected, config, env).s)
  {
    if Sessions.SessionOk(before.s) && Sessions.Unsurprised(before.s, before.feed, expected, env.responses, config, env.limit) {
      Sessions.ReadKeeps(before.s, before.feed, expected, config, env);
    }
  }

  /** A ledger that agrees with the server's queue and a connection. */
  ghost predicate Agrees(place: LifeCycle.Ledger, x: Snapshot, sv: nat, c: nat) {
    LifeCycle.QueueHolds(place, sv, x.feed.queue) && LifeCycle.ConnHolds(place, sv, c, x.s.next, x.s.inflight, None)
  }

  /** What a call has logged accounts for every article: followed from a ledger that agrees with the objects before the
      call, it is legal and leads to one that agrees with them after it. */
  ghost predicate LogAccounts(place: LifeCycle.Ledger, before: Snapshot, after: Snapshot, sv: nat, c: nat) {
    |before.log| <= |after.log| &&
    var logged := after.log[|before.log|..];
    LifeCycle.Legal(place, logged, sv, c) && Agrees(LifeCycle.FollowAll(place, logged, sv, c), after, sv, c)
  }

  /** After `Write` the log accounts for every article. */
  lemma WriteAccounts(nw: NewsWrapper, before: Snapshot, required: bool, env: WriteEnv, place: LifeCycle.Ledger, sv: nat, c: nat)
    requires Agrees(place, before, sv, c) && LifeCycle.FreshSupply(place, env.supply)
    ensures LogAccounts(place, before, After(nw, before, Connections.Write(before.s, before.feed, required, env)), sv, c)
  {
    LifeCycle.WriteHolds(place, sv, c, before.s, before.feed, required, env);
  }

  /** After `Read` it does too. */
  lemma ReadAccounts(nw: NewsWrapper, before: Snapshot, expected: nat, config: Config, env: ReadEnv, place: LifeCycle.Ledger, sv: nat, c: nat)
    requires Agrees(place, before, sv, c) && Sessions.SessionOk(before.s)
    requires Sessions.Unsurprised(before.s, before.feed, expected, env.responses, config, env.limit)
    requires LifeCycle.FreshForRead(place, sv, c, before.s, before.feed, expected, config, env)
    ensures LogAccounts(place, before, After(nw, before, Connections.Read(before.s, before.feed, expected, config, env)), sv, c)
  {
    LifeCycle.ReadHolds(place, sv, c, before.s, before.feed, expected, config, env);
  }

  /** And after `HardReset`. */
  lemma ResetAccounts(nw: NewsWrapper, before: Snapshot, limit: nat, required: bool, jobs: Jobs, place: LifeCycle.Ledger, sv: nat, c: nat)
    requires Agrees(place, before, sv, c)
    ensures LogAccounts(place, before, After(nw, before, Connections.HardReset(before.s, before.feed, limit, required, jobs)), sv, c)
  {
    LifeCycle.ResetHolds(place, sv, c, before.s, before.feed, limit, required, jobs);
  }

  /** One turn of the response loop, and then the others. */
  lemma ReadAllMore(nw: NewsWrapper, before: Snapshot, expected: nat, responses: seq<Response>, config: Config, limit: nat)
    requires responses != []
    ensures var one := Connections.ReadOne(before.s, before.feed, expected, responses[0], config, limit);
      var all := Connections.ReadAll(before.s, before.feed, expected, responses, config, limit);
      var stopped := StoppedEarly(before.s, before.feed, expected, responses, config, limit);
      if before.s.generation != expected || before.s.inflight == [] then stopped && After(nw, before, all) == before
      else
        && After(nw, before, all)
           == After(nw, After(nw, before, one), Connections.ReadAll(one.s, one.feed, expected, responses[1..], config, limit))
        && stopped == StoppedEarly(one.s, one.feed, expected, responses[1..], config, limit)
  {
    if before.s.generation == expected && before.s.inflight != [] {
      var one := Connections.ReadOne(before.s, before.feed, expected, responses[0], config, limit);
      AfterTwice(nw, before, one, Connections.ReadAll(one.s, one.feed, expected, responses[1..], config, limit));
    } else {
      assert before.log + [] == before.log;
    }
  }

  /** The state of the connection before a call plays no part in what it is afterwards. */
  lemma AfterForgets(nw: NewsWrapper, before: Snapshot, x: Session, r: Result)
    ensures After(nw, before.(s := x), r) == After(nw, before, r)
  {
  }

  /** One call after another on the same connection. */
  lemma AfterTwice(nw: NewsWrapper, before: Snapshot, one: Result, later: Result)
    ensures After(nw, After(nw, before, one), later)
            == After(nw, before, later.(events := one.events + later.events, parked := one.parked || later.parked))
  {
    assert before.log + one.events + later.events == before.log + (one.events + later.events);
  }

  /** The methods of `Downloader` that work on one connection. */
  class Downloader {
    static method ResetNw(nw: NewsWrapper, article: Option<Article>, retry: bool, limit: nat, jobs: Jobs)
      modifies nw, nw.server`log, nw.server`idleThreads, nw.server`busyThreads
      ensures nw.All() == After(nw, old(nw.All()), Connections.ResetNw(old(nw.Model()), old(nw.server.State()), article, retry, limit, nw.server.config.required, jobs))
    {
      nw.Discard(article, retry, jobs);
      nw.HardReset(limit, jobs);
    }

    /** What `finish_connect_nw` does about a permanent error. */
    static method Penalize(nw: NewsWrapper, response: Response, limit: nat)
      modifies nw, nw.server`log, nw.server`idleThreads, nw.server`busyThreads, nw.server`active, nw.server`articleQueue
      ensures nw.All() == After(nw, old(nw.All()), Connections.Penalize(old(nw.Model()), old(nw.server.State()), response, nw.server.config.required, limit))
    {
      if !response.penalty.NoReset? {
        ghost var before := nw.All();
        if response.penalty.Deactivate? {
          nw.server.Deactivate();
        }
        ghost var between := nw.All();
        ResetNw(nw, None, true, limit, response.jobs);
        ghost var pooled := if response.penalty.Deactivate? then ResetQueue(before.feed).1 else [];
        AfterTwice(nw, before, Result(between.s, between.feed, pooled, false),
                   Connections.ResetNw(between.s, between.feed, None, true, limit, nw.server.config.required, response.jobs));
      }
    }

    static method FinishConnectNw(nw: NewsWrapper, response: Response, limit: nat) returns (ok: bool)
      modifies nw, nw.server`log, nw.server`idleThreads, nw.server`busyThreads, nw.server`active, nw.server`articleQueue
      ensures var (r, finished) := Connections.FinishConnectNw(old(nw.Model()), old(nw.server.State()), response, nw.server.config, limit);
        ok == finished && nw.All() == After(nw, old(nw.All()), r)
    {
      ghost var before := nw.All();
      var failed := nw.FinishConnect(response.code, response.jobs);
      ghost var between := nw.All();
      ghost var l := Connections.FinishConnect(before.s.login, before.s.next, response.code, nw.server.config, response.jobs);
      assert between == After(nw, before, Result(before.s.(login := l.login, next := l.next), before.feed, l.events, false));
      if failed {
        Penalize(nw, response, limit);
        AfterTwice(nw, before, Result(between.s, between.feed, l.events, false),
                   Connections.Penalize(between.s, between.feed, response, nw.server.config.required, limit));
      }
      ok := !failed;
    }
  }
}
