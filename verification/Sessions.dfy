/** What every method of a connection keeps: permits, the response queue, the bytes on the wire, and the login. */
module Sessions {
  import opened Options
  import opened Connections

  /** The commands one after the other, as bytes. */
  function Bytes(requests: seq<Request>): string {
    if requests == [] then "" else requests[0].command + Bytes(requests[1..])
  }

  lemma {:induction false} BytesConcat(a: seq<Request>, b: seq<Request>)
    ensures Bytes(a + b) == Bytes(a) + Bytes(b)
  {
    if a == [] {
      assert a + b == b;
    } else {
      assert (a + b)[1..] == a[1..] + b;
      BytesConcat(a[1..], b);
    }
  }

  function Tags(requests: seq<Request>): seq<Option<Article>> {
    seq(|requests|, i requires 0 <= i < |requests| => requests[i].article)
  }

  /** The article tags of everything this connection will be answered for: the greeting, then every command. */
  function Expected(s: Session): seq<Option<Article>> {
    if s.isOpen then [None] + Tags(s.wire.committed) else []
  }

  predicate HoldsArticle(next: Option<Request>) {
    next.Some? && next.value.article.Some?
  }

  /** The response queue is exactly what is still to be answered, in order. */
  predicate QueueExact(s: Session) {
    s.popped <= |Expected(s)| && s.inflight == Expected(s)[s.popped..]
  }

  /** The socket's bytes followed by the buffer are the committed commands, and at most the last one is unfinished. */
  predicate WireExact(w: Wire) {
    && w.accepted + w.buffer == Bytes(w.committed)
    && (w.buffer != "" ==> w.committed != [] && |w.buffer| <= |w.committed[|w.committed| - 1].command|)
  }

  /** A ready connection has nothing left to say about its login. */
  predicate LoginExact(l: Login) {
    l.ready ==> l.userSent && l.userOk && l.passSent
  }

  predicate SessionOk(s: Session) {
    && s.permits + |s.inflight| + s.leaked == s.limit && QueueExact(s) && WireExact(s.wire) && LoginExact(s.login)
    && (!s.login.ready && HoldsArticle(s.next) ==> s.inflight == [])
    && (s.connected ==> s.isOpen)
    && (!s.isOpen ==> s.next.None? && s.wire.committed == [] && !s.login.ready && s.leaked == 0)
  }

  /** The one situation the code does not handle: a ready connection that is asked to log in while an article waits
      to be sent. */
  predicate Surprised(login: Login, next: Option<Request>, code: int) {
    login.ready && code == 480 && HoldsArticle(next)
  }

  lemma FreshIsOk(limit: nat, generation: nat)
    ensures SessionOk(Fresh(limit, generation))
  {
  }

  /** Connecting takes the greeting's permit and queues nothing else. */
  lemma InitConnectKeeps(s: Session)
    requires SessionOk(s) && !s.isOpen && s.limit > 0
    ensures s.permits == s.limit && SessionOk(InitConnect(s)) && InitConnect(s).inflight == [None]
  {
  }

  lemma PrepareKeeps(s: Session, feed: Feed, mayWork: bool, supply: Supply, required: bool, jobs: Jobs)
    requires SessionOk(s) && s.isOpen
    ensures SessionOk(PrepareRequest(s, feed, mayWork, supply, required, jobs).0)
  {
  }

  lemma {:induction false} TagsSnoc(requests: seq<Request>, r: Request)
    ensures Tags(requests + [r]) == Tags(requests) + [r.article]
  {
  }

  lemma CommitKeeps(w: Wire, request: Request, sent: nat)
    requires WireExact(w) && w.buffer == "" && sent <= |request.command|
    ensures WireExact(Wire(w.accepted + request.command[..sent], request.command[sent..], w.committed + [request]))
  {
    BytesConcat(w.committed, [request]);
    assert Bytes([request]) == request.command;
    assert request.command[..sent] + request.command[sent..] == request.command;
    assert w.accepted == Bytes(w.committed);
  }

  lemma FlushKeeps(w: Wire, sending: Sending)
    requires WireExact(w)
    ensures WireExact(FlushBuffer(w, sending))
  {
    var sent := TakenOf(sending, w.buffer);
    assert w.buffer[..sent] + w.buffer[sent..] == w.buffer;
  }

  lemma CommitQueues(s: Session, t: Session, request: Request)
    requires QueueExact(s) && s.isOpen && t.isOpen && t.popped == s.popped
    requires t.wire.committed == s.wire.committed + [request] && t.inflight == s.inflight + [request.article]
    ensures QueueExact(t)
  {
    TagsSnoc(s.wire.committed, request);
    assert Expected(t) == Expected(s) + [request.article];
    assert Expected(t)[s.popped..] == Expected(s)[s.popped..] + [request.article];
  }

  lemma SendNextKeeps(s: Session, feed: Feed, required: bool, env: WriteEnv)
    requires SessionOk(s) && s.isOpen && s.next.Some? && s.permits > 0 && s.wire.buffer == ""
    ensures SessionOk(SendNext(s, feed, required, env).s)
  {
    var r := s.next.value;
    var sent := TakenOf(env.send, r.command);
    CommitKeeps(s.wire, r, sent);
    var t := s.(permits := s.permits - 1, inflight := s.inflight + [r.article], next := None,
                wire := Wire(s.wire.accepted + r.command[..sent], r.command[sent..], s.wire.committed + [r]));
    CommitQueues(s, t, r);
    assert SessionOk(t);
    FreshIsOk(env.limit, s.generation + 1);
    SendNextCases(s, feed, required, env);
  }

  /** The four ways a send can go. */
  lemma SendNextCases(s: Session, feed: Feed, required: bool, env: WriteEnv)
    requires s.next.Some? && s.permits > 0
    ensures var t, r := SendNext(s, feed, required, env).s, s.next.value;
      var sent := TakenOf(env.send, r.command);
      || t == s.(next := None)
      || t == s.(permits := s.permits - 1, leaked := s.leaked + 1)
      || t == Fresh(env.limit, s.generation + 1)
      || t == s.(permits := s.permits - 1, inflight := s.inflight + [r.article], next := None,
                 wire := Wire(s.wire.accepted + r.command[..sent], r.command[sent..], s.wire.committed + [r]))
  {
  }

  lemma WriteRequestKeeps(s: Session, feed: Feed, required: bool, env: WriteEnv)
    requires SessionOk(s) && s.isOpen && s.wire.buffer == ""
    ensures SessionOk(WriteRequest(s, feed, required, env).s)
  {
    PrepareKeeps(s, feed, env.mayWork, env.supply, required, env.jobs);
    var (s1, feed1, _, work) := PrepareRequest(s, feed, env.mayWork, env.supply, required, env.jobs);
    if work && s1.next.Some? && s1.permits > 0 {
      SendNextKeeps(s1, feed1, required, env);
    }
  }

  /** A write, with any number of bytes taken and any error raised, keeps permits, queue and wire exact. */
  lemma WriteKeeps(s: Session, feed: Feed, required: bool, env: WriteEnv)
    requires SessionOk(s) && s.isOpen
    ensures SessionOk(Write(s, feed, required, env).s)
  {
    FlushKeeps(s.wire, env.flush);
    var s1 := s.(wire := FlushBuffer(s.wire, env.flush));
    assert SessionOk(s1);
    if s1.wire.buffer == "" {
      WriteRequestKeeps(s1, feed, required, env);
    }
    FreshIsOk(env.limit, s.generation + 1);
  }

  /** Without an article waiting, logging in queues login commands and nothing else. */
  lemma ContinueLoginKeeps(login: Login, next: Option<Request>, code: int, config: Config, jobs: Jobs)
    requires LoginExact(login) && !HoldsArticle(next)
    ensures var l := LoginContinued(login, next, code, config, jobs);
      && LoginExact(l.login) && l.events == [] && !HoldsArticle(l.next)
      && (l.next == next || (l.next.Some? && l.next.value.command in {config.userCommand, config.passCommand}))
  {
  }

  /** A connection that is ready has no login command left to queue. */
  lemma ReadyLoginKeeps(login: Login, next: Option<Request>, code: int, config: Config, jobs: Jobs)
    requires LoginExact(login) && login.ready
    ensures var l := LoginContinued(login, next, code, config, jobs);
      LoginExact(l.login) && l.events == [] && l.next == next && l.login.ready
  {
  }

  /** Login discards nothing and leaves a waiting article alone, unless a 480 surprises the connection; what it
      queues are login commands. */
  lemma FinishConnectKeeps(login: Login, next: Option<Request>, code: int, config: Config, jobs: Jobs)
    requires LoginExact(login) && !Surprised(login, next, code)
    requires !login.ready ==> !HoldsArticle(next)
    ensures var l := FinishConnect(login, next, code, config, jobs);
      && LoginExact(l.login) && l.events == []
      && (HoldsArticle(next) ==> l.login.ready && l.next == next) && (HoldsArticle(l.next) ==> l.next == next)
      && (l.next == next || (l.next.Some? && l.next.value.command in {config.userCommand, config.passCommand}))
  {
    var begun := LoginBegun(login, code, config);
    assert LoginExact(begun);
    if !HoldsArticle(next) {
      ContinueLoginKeeps(begun, next, code, config, jobs);
    } else {
      ReadyLoginKeeps(begun, next, code, config, jobs);
    }
  }

  /** The guard in `queue_command` fires on an article exactly when a 480 surprises a ready connection; then the
      article that is discarded is at once the article of the login command. */
  lemma GuardFiresOnlyWhenSurprised(login: Login, next: Option<Request>, code: int, config: Config, jobs: Jobs)
    requires LoginExact(login) && (!login.ready ==> !HoldsArticle(next))
    ensures var l := FinishConnect(login, next, code, config, jobs);
      (exists how :: HoldsArticle(l.next) && Ended(l.next.value.article.value, how) in l.events) <==> Surprised(login, next, code)
  {
    var l := FinishConnect(login, next, code, config, jobs);
    if Surprised(login, next, code) {
      assert l.next.value.article == next.value.article;
      assert l.events[0] == Ended(next.value.article.value, l.events[0].how);
    } else {
      FinishConnectKeeps(login, next, code, config, jobs);
    }
  }

  /** A session with a login step taken. */
  predicate SameButLogin(s: Session, t: Session) {
    t == s.(login := t.login, next := t.next)
  }

  lemma FinishConnectNwKeeps(s: Session, feed: Feed, response: Response, config: Config, limit: nat)
    requires SessionOk(s) && s.isOpen && !Surprised(s.login, s.next, response.code)
    requires !s.login.ready ==> !HoldsArticle(s.next)
    ensures var t := FinishConnectNw(s, feed, response, config, limit).0.s;
      t == Fresh(limit, s.generation + 1) || (SessionOk(t) && SameButLogin(s, t))
  {
    FinishConnectKeeps(s.login, s.next, response.code, config, response.jobs);
    var l := FinishConnect(s.login, s.next, response.code, config, response.jobs);
    assert SessionOk(s.(login := l.login, next := l.next));
  }

  /** A response gives back its permit, never more, and leaves everything exact. */
  lemma OnResponseKeeps(s: Session, feed: Feed, response: Response, article: Option<Article>, config: Config, limit: nat)
    requires SessionOk(s.(permits := s.permits + 1)) && s.isOpen && !Surprised(s.login, s.next, response.code)
    requires !s.login.ready ==> !HoldsArticle(s.next)
    ensures s.permits + 1 <= s.limit
    ensures var t := OnResponse(s, feed, response, article, config, limit).s;
      t == Fresh(limit, s.generation + 1) || (SessionOk(t) && SameButLogin(s.(permits := s.permits + 1), t))
  {
    var s1 := s.(permits := s.permits + 1);
    FinishConnectNwKeeps(s1, feed, response, config, limit);
    OnResponseCases(s, feed, response, article, config, limit);
  }

  /** The answer to a request for an article leaves the connection, or a fresh one, and the queue. */
  lemma ArticleResponseCases(s: Session, feed: Feed, response: Response, a: Article, config: Config, limit: nat)
    ensures var r := ArticleResponse(s, feed, response, a, config, limit);
      (r.s == s || r.s == Fresh(limit, s.generation + 1)) && r.feed.queue == feed.queue
  {
  }

  lemma OnResponseCases(s: Session, feed: Feed, response: Response, article: Option<Article>, config: Config, limit: nat)
    ensures var r, s1 := OnResponse(s, feed, response, article, config, limit), s.(permits := s.permits + 1);
      var l := FinishConnectNw(s1, feed, response, config, limit).0;
      if IsLoginResponse(s.login.ready, response.code, article) then r.s == l.s && r.feed == l.feed
      else (r.s == s1 || r.s == Fresh(limit, s.generation + 1)) && r.feed.queue == feed.queue
  {
    if !IsLoginResponse(s.login.ready, response.code, article) {
      ArticleResponseCases(s.(permits := s.permits + 1), feed, response, article.value, config, limit);
    }
  }

  /** One response of the right generation pairs with the head of the queue; one of an earlier generation, or one that
      nothing waits for, changes nothing. */
  lemma ReadOneKeeps(s: Session, feed: Feed, generation: nat, response: Response, config: Config, limit: nat)
    requires SessionOk(s) && !Surprised(s.login, s.next, response.code)
    ensures var r := ReadOne(s, feed, generation, response, config, limit);
      if generation != s.generation || s.inflight == [] then r == Result(s, feed, [], false)
      else
        r.s == Fresh(limit, s.generation + 1) || (SessionOk(r.s) && SameButLogin(Popped(s), r.s))
  {
    if s.generation == generation && s.inflight != [] {
      var s1 := s.(inflight := s.inflight[1..], popped := s.popped + 1);
      PoppedKeeps(s);
      OnResponseKeeps(s1, feed, response, s.inflight[0], config, limit);
    }
  }

  /** The head of the response queue is taken, and its permit given back. */
  function Popped(s: Session): Session
    requires s.inflight != []
  {
    s.(inflight := s.inflight[1..], popped := s.popped + 1, permits := s.permits + 1)
  }

  lemma PoppedKeeps(s: Session)
    requires SessionOk(s) && s.inflight != []
    ensures SessionOk(Popped(s)) && s.isOpen && (!s.login.ready ==> !HoldsArticle(s.next))
  {
    assert s.inflight[1..] == Expected(s)[s.popped..][1..] == Expected(s)[s.popped + 1..];
  }

  /** No response of the list surprises the connection when its turn comes. */
  predicate Unsurprised(s: Session, feed: Feed, generation: nat, responses: seq<Response>, config: Config, limit: nat)
    decreases |responses|
  {
    responses == [] || s.generation != generation || s.inflight == [] ||
    (!Surprised(s.login, s.next, responses[0].code) &&
     var r := ReadOne(s, feed, generation, responses[0], config, limit);
     Unsurprised(r.s, r.feed, generation, responses[1..], config, limit))
  }

  /** What the response loop makes of a connection, given how many responses there were: a fresh one, or the same one
      with all its responses paired if there were entries for them. */
  predicate Looped(s: Session, t: Session, responses: nat, stopped: bool, limit: nat) {
    || t == Fresh(limit, s.generation + 1)
    || (t.generation == s.generation && t.isOpen == s.isOpen && t.wire == s.wire && t.limit == s.limit
        && (responses <= |s.inflight| ==> t.popped == s.popped + responses && !stopped))
  }

  lemma LoopedMore(s: Session, s1: Session, t: Session, responses: nat, stopped: bool, limit: nat)
    requires s.inflight != [] && SameButLogin(Popped(s), s1) && Looped(s1, t, responses, stopped, limit)
    ensures Looped(s, t, responses + 1, stopped, limit)
  {
  }

  lemma ReadOneIsOk(s: Session, feed: Feed, generation: nat, response: Response, config: Config, limit: nat)
    requires SessionOk(s) && !Surprised(s.login, s.next, response.code)
    ensures SessionOk(ReadOne(s, feed, generation, response, config, limit).s)
  {
    ReadOneKeeps(s, feed, generation, response, config, limit);
    FreshIsOk(limit, s.generation + 1);
  }

  /** A reader of another generation changes nothing. */
  lemma StaleLoop(s: Session, feed: Feed, generation: nat, responses: seq<Response>, config: Config, limit: nat)
    requires generation != s.generation
    ensures ReadAll(s, feed, generation, responses, config, limit) == Result(s, feed, [], false)
  {
  }

  /** The whole response loop; if it does not end in a reset, every response found its entry. */
  lemma {:induction false} ReadAllKeeps(s: Session, feed: Feed, generation: nat, responses: seq<Response>, config: Config, limit: nat)
    requires SessionOk(s) && Unsurprised(s, feed, generation, responses, config, limit)
    ensures var r := ReadAll(s, feed, generation, responses, config, limit);
      && SessionOk(r.s)
      && (if generation != s.generation then r.s == s
          else Looped(s, r.s, |responses|, StoppedEarly(s, feed, generation, responses, config, limit), limit))
    decreases |responses|
  {
    if responses != [] && s.generation == generation && s.inflight != [] {
      ReadOneKeeps(s, feed, generation, responses[0], config, limit);
      ReadOneIsOk(s, feed, generation, responses[0], config, limit);
      var r, rest := ReadOne(s, feed, generation, responses[0], config, limit), responses[1..];
      ReadAllKeeps(r.s, r.feed, generation, rest, config, limit);
      if r.s == Fresh(limit, s.generation + 1) {
        StaleLoop(r.s, r.feed, generation, rest, config, limit);
      } else {
        LoopedMore(s, r.s, ReadAll(r.s, r.feed, generation, rest, config, limit).s, |rest|,
                   StoppedEarly(r.s, r.feed, generation, rest, config, limit), limit);
      }
    }
  }

  lemma ReadKeeps(s: Session, feed: Feed, generation: nat, config: Config, env: ReadEnv)
    requires SessionOk(s) && Unsurprised(s, feed, generation, env.responses, config, env.limit)
    ensures SessionOk(Read(s, feed, generation, config, env).s)
    ensures generation != s.generation ==> Read(s, feed, generation, config, env).s == s
  {
    ReadAllKeeps(s, feed, generation, env.responses, config, env.limit);
    var r := ReadAll(s, feed, generation, env.responses, config, env.limit);
    if s.isOpen && r.s.generation == generation {
      PrepareKeeps(r.s, r.feed, env.mayWork, env.supply, config.required, env.jobs);
    }
  }

  /** The limit is respected, and the free permits are exactly what is not in flight unless a send raised would-block
      after its permit was taken. */
  lemma PermitsExact(s: Session)
    requires SessionOk(s)
    ensures |s.inflight| <= s.limit && s.permits + |s.inflight| <= s.limit
    ensures s.permits + |s.inflight| == s.limit <==> s.leaked == 0
  {
  }

  /** Would-block after the permit was taken costs one permit for good; `Duplex` shows what as many as the limit do. */
  lemma WouldBlockCostsAPermit(s: Session, feed: Feed, required: bool, env: WriteEnv)
    requires SessionOk(s) && s.isOpen && s.next.Some? && s.permits > 0 && s.wire.buffer == "" && env.send.WouldBlock?
    requires var a := s.next.value.article; a.Some? ==> a.value !in env.jobs.removed && a.value !in env.jobs.paused
    ensures var t := SendNext(s, feed, required, env).s; t == s.(permits := s.permits - 1, leaked := s.leaked + 1)
    ensures SendNext(s, feed, required, env).s.permits + |s.inflight| < s.limit
  {
  }
}
