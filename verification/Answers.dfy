/**
 What a connection does, call by call, said in terms of codes, flags and queues: what each answer means for the article
 it came for, which request is prepared and when it is sent, and how everything a connection holds ends when it is reset.
 */
module Answers {
  import opened Options
  import opened Connections
  import opened Sessions
  import opened Duplex

  // ------------------------------------------------------------------------------------------- the end of a stay

  /** How the stay of an article ends that is given back with `how often` counted or not: forgotten if its job was removed;
      decoded, as a failure, if it was tried too often at a server that is not required, or is not to be retried; else it
      goes back for any server. */
  predicate GivenBack(events: seq<Event>, a: Article, retry: bool, required: bool, jobs: Jobs) {
    |events| == 1 && events[0].Ended? && events[0].a == a &&
    if a in jobs.removed then events[0].how.Dropped?
    else if retry && (required || a !in jobs.exhausted) then events[0].how.Pooled?
    else events[0].how == if a in jobs.settled then Registered else Pooled
  }

  lemma DiscardGivesBack(a: Article, retry: bool, required: bool, jobs: Jobs)
    ensures GivenBack(Discard(Some(a), retry, required, jobs), a, retry, required, jobs)
    ensures Discard(None, retry, required, jobs) == []
  {
  }

  /** The articles that these events give back, one after the other. */
  predicate AllGivenBack(events: seq<Event>, articles: seq<Article>, required: bool, jobs: Jobs) {
    |events| == |articles| && forall i :: 0 <= i < |events| ==> GivenBack([events[i]], articles[i], true, required, jobs)
  }

  /** The articles in a list of tags. */
  function Tagged(tags: seq<Option<Article>>): seq<Article> {
    if tags == [] then [] else (if tags[0].Some? then [tags[0].value] else []) + Tagged(tags[1..])
  }

  /** What a connection holds, the request that waits first. */
  function HeldBy(s: Session): seq<Article> {
    (if s.next.Some? && s.next.value.article.Some? then [s.next.value.article.value] else []) + Tagged(s.inflight)
  }

  lemma AllConcat(e: seq<Event>, f: seq<Event>, a: seq<Article>, b: seq<Article>, required: bool, jobs: Jobs)
    requires AllGivenBack(e, a, required, jobs) && AllGivenBack(f, b, required, jobs)
    ensures AllGivenBack(e + f, a + b, required, jobs)
  {
  }

  lemma OneGivenBack(article: Option<Article>, required: bool, jobs: Jobs)
    ensures AllGivenBack(Discard(article, true, required, jobs), if article.Some? then [article.value] else [], required, jobs)
  {
    if article.Some? {
      DiscardGivesBack(article.value, true, required, jobs);
      var events := Discard(article, true, required, jobs);
      assert events == [events[0]];
    }
  }

  lemma {:induction false} DrainGivesBack(tags: seq<Option<Article>>, required: bool, jobs: Jobs)
    ensures AllGivenBack(DrainEvents(tags, required, jobs), Tagged(tags), required, jobs)
    decreases |tags|
  {
    if tags != [] {
      DrainGivesBack(tags[1..], required, jobs);
      OneGivenBack(tags[0], required, jobs);
      AllConcat(Discard(tags[0], true, required, jobs), DrainEvents(tags[1..], required, jobs),
                if tags[0].Some? then [tags[0].value] else [], Tagged(tags[1..]), required, jobs);
    }
  }

  /** A hard reset gives back everything the connection holds, the waiting request first and then what is in flight in its
      order; it leaves a closed connection with all its permits that has said and heard nothing, of the next generation,
      and out of the busy set if it was open. */
  lemma ResetGivesBack(s: Session, feed: Feed, limit: nat, required: bool, jobs: Jobs)
    ensures var r := HardReset(s, feed, limit, required, jobs);
      && AllGivenBack(r.events, HeldBy(s), required, jobs) && r.feed == feed && r.parked == s.isOpen
      && !r.s.isOpen && !r.s.connected && r.s.login == Login(false, false, false, false, false, false)
      && r.s.next == None && r.s.inflight == [] && r.s.permits == r.s.limit == limit && r.s.generation == s.generation + 1
      && r.s.wire == Wire("", "", []) && r.s.popped == 0
  {
    DrainGivesBack(s.inflight, required, jobs);
    var unsent := if s.next.Some? then s.next.value.article else None;
    OneGivenBack(unsent, required, jobs);
    AllConcat(Discard(unsent, true, required, jobs), DrainEvents(s.inflight, required, jobs),
              if unsent.Some? then [unsent.value] else [], Tagged(s.inflight), required, jobs);
  }

  // ------------------------------------------------------------------------------------------------------- answers

  /** An answer that ends an article's stay: it was sent, is present, or is missing. */
  predicate IsFinal(code: int) {
    code == 220 || code == 222 || code == 223 || code == 411 || code == 423 || code == 430 || code == 451
  }

  predicate IsAboutLogin(code: int) {
    code == 281 || code == 381 || code == 480 || code == 481 || code == 482
  }

  /** The connection with the head of its queue answered and its permit free again. */
  function AfterAnswer(s: Session): Session
    requires s.inflight != []
  {
    s.(inflight := s.inflight[1..], popped := s.popped + 1, permits := s.permits + 1)
  }

  /** What an answer does to the article that a ready connection asked for. Sent, present or missing: it is decoded, and
      the connection goes on. */
  lemma FinalAnswer(s: Session, feed: Feed, response: Response, config: Config, limit: nat, a: Article)
    requires s.login.ready && s.inflight != [] && s.inflight[0] == Some(a) && IsFinal(response.code)
    ensures ReadOne(s, feed, s.generation, response, config, limit)
            == Result(AfterAnswer(s), feed, [Ended(a, if a in response.jobs.settled then Registered else Pooled)], false)
  {
  }

  /** A 500: the server does not know the command and is not asked with it again; the article goes back. */
  lemma RefusedCommand(s: Session, feed: Feed, response: Response, config: Config, limit: nat, a: Article)
    requires s.login.ready && s.inflight != [] && s.inflight[0] == Some(a) && response.code == 500
    ensures var r := ReadOne(s, feed, s.generation, response, config, limit);
      && r.s == AfterAnswer(s) && !r.parked && GivenBack(r.events, a, true, config.required, response.jobs)
      && r.feed == if a in response.jobs.precheck then feed.(haveStat := false) else feed.(haveBody := false)
  {
    DiscardGivesBack(a, true, config.required, response.jobs);
  }

  /** An answer about the login: the article goes back, and then the login goes on with it. */
  lemma LoginAnswer(s: Session, feed: Feed, response: Response, config: Config, limit: nat, a: Article)
    requires s.login.ready && s.inflight != [] && s.inflight[0] == Some(a) && IsAboutLogin(response.code)
    ensures var r, l := ReadOne(s, feed, s.generation, response, config, limit),
                        FinishConnectNw(AfterAnswer(s), feed, response, config, limit).0;
      && r.events != [] && GivenBack(r.events[..1], a, true, config.required, response.jobs)
      && r.s == l.s && r.feed == l.feed && r.parked == l.parked && r.events[1..] == l.events
  {
    DiscardGivesBack(a, true, config.required, response.jobs);
    LoginAnswerIs(s, feed, response, config, limit, a);
    var gone := Discard(Some(a), true, config.required, response.jobs);
    GoneFirst(gone, FinishConnectNw(AfterAnswer(s), feed, response, config, limit).0.events);
  }

  lemma GoneFirst(gone: seq<Event>, events: seq<Event>)
    requires |gone| == 1
    ensures (gone + events)[..1] == gone == [gone[0]] && (gone + events)[1..] == events
  {
  }

  lemma LoginAnswerIs(s: Session, feed: Feed, response: Response, config: Config, limit: nat, a: Article)
    requires s.inflight != [] && s.inflight[0] == Some(a) && IsAboutLogin(response.code)
    ensures var l := FinishConnectNw(AfterAnswer(s), feed, response, config, limit).0;
      ReadOne(s, feed, s.generation, response, config, limit)
      == l.(events := Discard(Some(a), true, config.required, response.jobs) + l.events)
  {
    ToLogin(s, feed, response, config, limit);
  }

  /** Answers that `IsLoginResponse` picks go on to the login, with the head of the queue taken. */
  lemma ToLogin(s: Session, feed: Feed, response: Response, config: Config, limit: nat)
    requires s.inflight != [] && IsLoginResponse(s.login.ready, response.code, s.inflight[0])
    ensures ReadOne(s, feed, s.generation, response, config, limit)
            == LoginResponse(AfterAnswer(s), feed, response, s.inflight[0], config, limit)
  {
    var popped := s.(inflight := s.inflight[1..], popped := s.popped + 1);
    assert popped.(permits := popped.permits + 1) == AfterAnswer(s);
    assert ReadOne(s, feed, s.generation, response, config, limit) == OnResponse(popped, feed, response, s.inflight[0], config, limit);
  }

  /** Anything else: the article goes back, and the connection is reset. */
  lemma UnknownAnswer(s: Session, feed: Feed, response: Response, config: Config, limit: nat, a: Article)
    requires s.login.ready && s.inflight != [] && s.inflight[0] == Some(a)
    requires !IsFinal(response.code) && response.code != 500 && !IsAboutLogin(response.code)
    ensures var r := ReadOne(s, feed, s.generation, response, config, limit);
      && r.s == Fresh(limit, s.generation + 1) && r.feed == feed && r.parked == s.isOpen
      && r.events != [] && GivenBack(r.events[..1], a, true, config.required, response.jobs)
      && AllGivenBack(r.events[1..], HeldBy(AfterAnswer(s)), config.required, response.jobs)
  {
    DiscardGivesBack(a, true, config.required, response.jobs);
    var gone := Discard(Some(a), true, config.required, response.jobs);
    ResetGivesBack(AfterAnswer(s), feed, limit, config.required, response.jobs);
    var reset := HardReset(AfterAnswer(s), feed, limit, config.required, response.jobs);
    assert (gone + reset.events)[..1] == gone == [gone[0]] && (gone + reset.events)[1..] == reset.events;
  }

  /** What every answer does that is about the login, on a connection that is not ready or for no article: the login goes
      on with it, whatever the code, but for an article that was sent. */
  lemma AnswerToLogin(s: Session, feed: Feed, response: Response, config: Config, limit: nat)
    requires s.inflight != [] && (s.inflight[0].None? || !s.login.ready)
    requires s.inflight[0].Some? ==> response.code != 220 && response.code != 222
    ensures var r, l := ReadOne(s, feed, s.generation, response, config, limit),
                        FinishConnect(s.login, s.next, response.code, config, response.jobs);
      && (!l.failed ==> r.s == AfterAnswer(s).(login := l.login, next := l.next) && r.feed == feed && !r.parked)
      && (l.failed && response.penalty.NoReset? ==> r.s == AfterAnswer(s).(login := l.login, next := l.next) && r.feed == feed && !r.parked)
      && (l.failed && !response.penalty.NoReset? ==> r.s == Fresh(limit, s.generation + 1) && r.parked == s.isOpen)
      && (l.failed && response.penalty.Reset? ==> r.feed == feed)
      && (l.failed && response.penalty.Deactivate? ==> r.feed == feed.(queue := [], active := false))
  {
    ToLogin(s, feed, response, config, limit);
    LoginOrPenalty(AfterAnswer(s), feed, response, config, limit);
  }

  lemma LoginOrPenalty(s: Session, feed: Feed, response: Response, config: Config, limit: nat)
    ensures var r, l := FinishConnectNw(s, feed, response, config, limit).0,
                        FinishConnect(s.login, s.next, response.code, config, response.jobs);
      && (!l.failed || response.penalty.NoReset? ==> r.s == s.(login := l.login, next := l.next) && r.feed == feed && !r.parked)
      && (l.failed && !response.penalty.NoReset? ==> r.s == Fresh(limit, s.generation + 1) && r.parked == s.isOpen)
      && (l.failed && response.penalty.Reset? ==> r.feed == feed)
      && (l.failed && response.penalty.Deactivate? ==> r.feed == feed.(queue := [], active := false))
  {
  }

  /** Article and body end an article's stay on a connection that is not ready, too. */
  lemma SentToUnready(s: Session, feed: Feed, response: Response, config: Config, limit: nat, a: Article)
    requires s.inflight != [] && s.inflight[0] == Some(a) && (response.code == 220 || response.code == 222)
    ensures var r := ReadOne(s, feed, s.generation, response, config, limit);
      r.s == AfterAnswer(s) && r.feed == feed && r.events == [Ended(a, if a in response.jobs.settled then Registered else Pooled)]
  {
  }

  /** A reader without an entry, or of another generation, does nothing. */
  lemma NoEntryNoAnswer(s: Session, feed: Feed, generation: nat, response: Response, config: Config, limit: nat)
    requires s.generation != generation || s.inflight == []
    ensures ReadOne(s, feed, generation, response, config, limit) == Result(s, feed, [], false)
  {
  }

  // ----------------------------------------------------------------------------------------- which request, and when

  /** The command for an article: STAT or BODY, or what a server is asked with that refused them. */
  lemma CommandSays(feed: Feed, a: Article, jobs: Jobs)
    ensures a in jobs.precheck && feed.haveStat ==> ArticleCommand(feed, a, jobs) == "STAT <" + a.messageId + ">\r\n"
    ensures a in jobs.precheck && !feed.haveStat ==> ArticleCommand(feed, a, jobs) == "HEAD <" + a.messageId + ">\r\n"
    ensures a !in jobs.precheck && feed.haveBody ==> ArticleCommand(feed, a, jobs) == "BODY <" + a.messageId + ">\r\n"
    ensures a !in jobs.precheck && !feed.haveBody ==> ArticleCommand(feed, a, jobs) == "ARTICLE <" + a.messageId + ">\r\n"
  {
  }

  /** Articles leave a server's queue in the order in which it was handed them. A search is made only when the queue is
      empty and a search is due, and takes in all it finds; unless they are past the server's retention: then each is
      decoded as missing, but the first of them is not looked at last. */
  lemma FirstInFirstOut(feed: Feed, peek: bool, supply: Supply, jobs: Jobs)
    ensures var (feed1, found, events) := GetArticle(feed, peek, supply, jobs);
      var searched := feed.queue == [] && supply.searchDue && supply.found != [];
      && feed1 == feed.(queue := feed1.queue)
      && (!searched ==> events == [] && (found.None? <==> feed.queue == []))
      && (searched && !supply.expired ==> events == HandAll(supply.found) && found.Some?)
      && (searched && supply.expired ==> found.None? && feed1.queue == [])
      && (!(searched && supply.expired) ==>
           var all := if searched then supply.found else feed.queue;
           && (found.Some? ==> all != [] && found.value == all[0])
           && feed1.queue == if peek || all == [] then all else all[1..])
  {
  }

  lemma {:induction false} HandAllIs(articles: seq<Article>)
    ensures |HandAll(articles)| == |articles| && forall i :: 0 <= i < |articles| ==> HandAll(articles)[i] == Handed(articles[i])
  {
    if articles != [] {
      HandAllIs(articles[1..]);
    }
  }

  /** The i-th to be decoded: from the last, but the first before all others unless it was only peeked at. */
  predicate IsDecoded(events: seq<Event>, i: nat, found: seq<Article>, peek: bool, jobs: Jobs)
    requires i < |found|
  {
    var n := |found|;
    var a := found[if peek then n - 1 - i else if i == 0 then 0 else n - i];
    i < |events| && events[i] == Ended(a, if a in jobs.settled then Registered else Pooled)
  }

  /** Expired articles are all handed out and decoded, the last of the queue first. */
  lemma ExpiredAreDecoded(feed: Feed, peek: bool, supply: Supply, jobs: Jobs)
    requires feed.queue == [] && supply.searchDue && supply.found != [] && supply.expired
    ensures var events, n := GetArticle(feed, peek, supply, jobs).2, |supply.found|;
      && |events| == 2 * n && (forall i :: 0 <= i < n ==> events[i] == Handed(supply.found[i]))
      && forall i :: 0 <= i < n ==> IsDecoded(events[n..], i, supply.found, peek, jobs)
  {
    HandAllIs(supply.found);
    FromEndIs(supply.found, jobs);
    FromEndIs(supply.found[1..], jobs);
  }

  lemma {:induction false} FromEndIs(queue: seq<Article>, jobs: Jobs)
    ensures var events, n := DecodeFromEnd(queue, jobs), |queue|;
      |events| == n && forall i :: 0 <= i < n ==>
        events[i] == Ended(queue[n - 1 - i], if queue[n - 1 - i] in jobs.settled then Registered else Pooled)
    decreases |queue|
  {
    if queue != [] {
      FromEndIs(queue[..|queue| - 1], jobs);
    }
  }

  /** Freeing a queue gives all of it back, in order. */
  lemma {:induction false} QueueIsPooled(queue: seq<Article>)
    ensures |PoolAll(queue)| == |queue| && forall i :: 0 <= i < |queue| ==> PoolAll(queue)[i] == Ended(queue[i], Pooled)
  {
    if queue != [] {
      QueueIsPooled(queue[1..]);
    }
  }

  /** Freeing the queue of a server leaves it empty and gives each article back, in order, for any server. */
  lemma FreeingPoolsAll(feed: Feed)
    ensures var (feed1, events) := ResetQueue(feed);
      && feed1 == feed.(queue := []) && |events| == |feed.queue|
      && forall i :: 0 <= i < |events| ==> events[i] == Ended(feed.queue[i], Pooled)
  {
    QueueIsPooled(feed.queue);
  }

  /** The connection may ask for an article: it is logged in, or waits for nothing, its server is active and not about to
      restart, and nothing holds up all work. */
  predicate MayAsk(s: Session, feed: Feed, mayWork: bool) {
    (s.login.ready || s.inflight == []) && feed.active && !feed.restart && mayWork
  }

  /** When and what is prepared: a request that waits stays, but for one for an article that may not be asked for any more
      by a connection that could ask; without one, the article that comes next is asked for, if the connection may ask. */
  lemma PreparesExactly(s: Session, feed: Feed, mayWork: bool, supply: Supply, required: bool, jobs: Jobs)
    ensures var (t, feed1, events, work) := PrepareRequest(s, feed, mayWork, supply, required, jobs);
      var (fed, found, fetched) := GetArticle(feed, false, supply, jobs);
      && t == s.(next := t.next) && (work <==> t.next.Some? || t.inflight != [])
      && (s.next.Some? && (MayAsk(s, feed, mayWork) || s.next.value.article.None? || !(s.login.ready || s.inflight == [])) ==>
           t.next == s.next && feed1 == feed && events == [])
      && (s.next.Some? && !MayAsk(s, feed, mayWork) && s.next.value.article.Some? && (s.login.ready || s.inflight == []) ==>
           t.next == None && feed1 == feed && GivenBack(events, s.next.value.article.value, true, required, jobs))
      && (s.next.None? && !MayAsk(s, feed, mayWork) ==> t.next == None && feed1 == feed && events == [])
      && (s.next.None? && MayAsk(s, feed, mayWork) ==> feed1 == fed)
      && (s.next.None? && MayAsk(s, feed, mayWork) && found.None? ==> t.next == None && events == fetched)
      && (s.next.None? && MayAsk(s, feed, mayWork) && found.Some? ==>
           t.next == Some(Request(ArticleCommand(fed, found.value, jobs), found)) && events == fetched + [Assigned(found.value)])
  {
  }

  /** The request may be sent: its job is neither removed nor paused, or it is for no article. */
  predicate MaySend(request: Request, jobs: Jobs) {
    request.article.Some? ==> request.article.value !in jobs.removed && request.article.value !in jobs.paused
  }

  /** With nothing in the buffer, a waiting request is sent exactly when a permit is free, its job lets it and the socket
      takes bytes: then it is committed and in flight, and what the socket did not take is in the buffer. Without a
      permit it waits; for a job that was removed or paused it goes back; on a socket that fails the connection is
      reset. */
  lemma SendsExactly(s: Session, feed: Feed, required: bool, env: WriteEnv)
    requires s.wire.buffer == "" && s.next.Some? && MayAsk(s, feed, env.mayWork)
    ensures var r, request := Write(s, feed, required, env), s.next.value;
      var sent := if env.send.Takes? then (if env.send.n <= |request.command| then env.send.n else |request.command|) else 0;
      && (s.permits == 0 ==> r.s == s && r.feed == feed && r.events == [] && !r.parked)
      && (s.permits > 0 && !MaySend(request, env.jobs) ==>
           && r.s == s.(next := None) && r.feed == feed && !r.parked
           && GivenBack(r.events, request.article.value, true, required, env.jobs))
      && (s.permits > 0 && MaySend(request, env.jobs) && env.send.Takes? ==>
           && r.feed == feed && !r.parked && r.events == (if request.article.Some? then [Sent(request.article.value)] else [])
           && r.s == s.(permits := s.permits - 1, next := None, inflight := s.inflight + [request.article],
                        wire := Wire(s.wire.accepted + request.command[..sent], request.command[sent..], s.wire.committed + [request])))
      && (s.permits > 0 && MaySend(request, env.jobs) && env.send.Breaks? ==>
           && r.s == Fresh(env.limit, s.generation + 1) && r.feed == feed && r.parked == s.isOpen
           && AllGivenBack(r.events, HeldBy(s), required, env.jobs))
  {
    var s1 := s.(wire := FlushBuffer(s.wire, env.flush));
    assert s1.wire == s.wire && s1 == s;
    PreparesExactly(s, feed, env.mayWork, env.supply, required, env.jobs);
    assert PrepareRequest(s, feed, env.mayWork, env.supply, required, env.jobs) == (s, feed, [], true);
    ResetGivesBack(s, feed, env.limit, required, env.jobs);
    var request := s.next.value;
    if request.article.Some? {
      DiscardGivesBack(request.article.value, true, required, env.jobs);
    }
    if s.permits > 0 {
      var sent := SendNext(s, feed, required, env);
      assert [] + sent.events == sent.events;
      assert Discard(None, true, required, env.jobs) + HardReset(s, feed, env.limit, required, env.jobs).events
          == HardReset(s, feed, env.limit, required, env.jobs).events;
    }
  }

  /** The rest of a command goes out before anything else: as much of it as the socket takes; and while some is left no
      request is prepared. */
  lemma BufferFirst(s: Session, feed: Feed, required: bool, env: WriteEnv)
    requires s.wire.buffer != ""
    ensures var r := Write(s, feed, required, env);
      && (env.flush.WouldBlock? ==> r == Result(s, feed, [], false))
      && (env.flush.Breaks? ==> r.s == Fresh(env.limit, s.generation + 1) && r.feed == feed && r.parked == s.isOpen
                                && AllGivenBack(r.events, HeldBy(s), required, env.jobs))
      && (env.flush.Takes? && env.flush.n < |s.wire.buffer| ==>
           r == Result(s.(wire := s.wire.(accepted := s.wire.accepted + s.wire.buffer[..env.flush.n], buffer := s.wire.buffer[env.flush.n..])), feed, [], false))
      && (env.flush.Takes? && env.flush.n >= |s.wire.buffer| ==>
           r == Write(s.(wire := s.wire.(accepted := s.wire.accepted + s.wire.buffer, buffer := "")), feed, required, env))
  {
    ResetGivesBack(s, feed, env.limit, required, env.jobs);
    assert Discard(None, true, required, env.jobs) + HardReset(s, feed, env.limit, required, env.jobs).events
        == HardReset(s, feed, env.limit, required, env.jobs).events;
    if env.flush.Takes? && env.flush.n >= |s.wire.buffer| {
      var s1 := s.(wire := s.wire.(accepted := s.wire.accepted + s.wire.buffer, buffer := ""));
      assert s.wire.buffer[..|s.wire.buffer|] == s.wire.buffer && s.wire.buffer[|s.wire.buffer|..] == "";
      assert FlushBuffer(s.wire, env.flush) == s1.wire;
      assert FlushBuffer(s1.wire, env.flush) == s1.wire;
    }
  }

  /** A connection leaves the busy set when it has nothing to send and waits for no answer. */
  lemma WriteParksExactly(s: Session, feed: Feed, required: bool, env: WriteEnv)
    requires s.wire.buffer == "" && (env.send.Breaks? ==> s.permits == 0)
    ensures var r, t := Write(s, feed, required, env), PrepareRequest(s, feed, env.mayWork, env.supply, required, env.jobs).0;
      r.parked <==> t.next == None && t.inflight == []
  {
    var s1 := s.(wire := FlushBuffer(s.wire, env.flush));
    assert s1.wire == s.wire && s1 == s;
    PreparesExactly(s, feed, env.mayWork, env.supply, required, env.jobs);
  }

  /** Once all answers of a read are handled the next request is prepared, and an open connection with nothing to send and
      nothing to wait for leaves the busy set, unless more data is pending. A read that was cut short prepares nothing. */
  lemma ReadPrepares(s: Session, feed: Feed, config: Config, env: ReadEnv)
    requires s.isOpen && env.responses != []
    ensures var r, loop := Read(s, feed, s.generation, config, env), ReadAll(s, feed, s.generation, env.responses, config, env.limit);
      if loop.s.generation != s.generation || StoppedEarly(s, feed, s.generation, env.responses, config, env.limit) then r == loop
      else
        var (t, feed1, events, work) := PrepareRequest(loop.s, loop.feed, env.mayWork, env.supply, config.required, env.jobs);
        && r.s == t && r.feed == feed1 && r.events == loop.events + events
        && (r.parked <==> loop.parked || (t.next == None && t.inflight == [] && !env.morePending && t.isOpen))
  {
    var loop := ReadAll(s, feed, s.generation, env.responses, config, env.limit);
    PreparesExactly(loop.s, loop.feed, env.mayWork, env.supply, config.required, env.jobs);
  }

  /** Without data, or without a connection, a read does nothing. */
  lemma NothingRead(s: Session, feed: Feed, generation: nat, config: Config, env: ReadEnv)
    requires !s.isOpen || env.responses == []
    ensures Read(s, feed, generation, config, env) == Result(s, feed, [], false)
  {
  }

  /** The answers are handled one after the other, until the connection is reset or has no entry left. */
  lemma AnswersInTurn(s: Session, feed: Feed, generation: nat, responses: seq<Response>, config: Config, limit: nat)
    requires responses != [] && s.generation == generation && s.inflight != []
    ensures var one := ReadOne(s, feed, generation, responses[0], config, limit);
      var rest := ReadAll(one.s, one.feed, generation, responses[1..], config, limit);
      && ReadAll(s, feed, generation, responses, config, limit)
         == Result(rest.s, rest.feed, one.events + rest.events, one.parked || rest.parked)
      && (StoppedEarly(s, feed, generation, responses, config, limit)
          <==> StoppedEarly(one.s, one.feed, generation, responses[1..], config, limit))
  {
  }
}
