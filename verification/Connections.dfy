/**
 One NNTP connection (`NewsWrapper`) and the feed of articles of its server, as functions on values.

 A `Session` is the state of a `NewsWrapper` between two resets, with the history of what went over the wire. The
 functions are the methods of the class; each returns the articles' life-cycle events it causes, so that
 `Ownership` can follow every article, and `Wire` can follow every byte. The class `NewsWrapper` in `NewsWrappers`
 is proved to do exactly this.
 */
module Connections {
  import opened Options

  /** An article as the downloader sees it; articles with the same message-id stay different articles. */
  datatype Article = Article(id: nat, messageId: string)

  /** A queued request and the article it is for (none for login commands). */
  datatype Request = Request(command: string, article: Option<Article>)

  /** How an article's stay on a server ends: back in the queue for any server, registered as done or failed, or
      forgotten because its job was removed. */
  datatype Disposal = Pooled | Registered | Dropped

  /** The life cycle of an article that was handed to a server. */
  datatype Event =
    | Handed(a: Article)
    | Assigned(a: Article)
    | Sent(a: Article)
    | Ended(a: Article, how: Disposal)

  /** What a call reads of the jobs, which other threads own: jobs removed from the queue, paused (and not forced),
      in pre-check; articles tried too often; articles that decoding settles, because they are good or because there is
      no other server to try. `Decoders` says when that is. */
  datatype Jobs = Jobs(
    removed: set<Article>, paused: set<Article>, precheck: set<Article>, exhausted: set<Article>, settled: set<Article>)

  datatype Config = Config(needsLogin: bool, userCommand: string, passCommand: string, required: bool)

  /** How far the login is. */
  datatype Login = Login(ready: bool, userSent: bool, userOk: bool, passSent: bool, passOk: bool, forceLogin: bool)

  /** The bytes the socket took, the `write_buffer`, and the commands taken from `next_request` to be sent. */
  datatype Wire = Wire(accepted: string, buffer: string, committed: seq<Request>)

  datatype Session = Session(
    isOpen: bool, connected: bool, login: Login,
    next: Option<Request>,                // next_request
    inflight: seq<Option<Article>>,       // _response_queue
    limit: nat, permits: nat,             // concurrent_requests
    generation: nat,
    wire: Wire,
    popped: nat,                          // responses paired with an entry of the queue since the last reset
    leaked: nat)                          // permits taken by a send that then raised would-block

  /** The part of a `Server` that hands out articles. */
  datatype Feed = Feed(queue: seq<Article>, haveStat: bool, haveBody: bool, active: bool, restart: bool)

  /** The result of a call: the new state, the events it caused, and whether the connection left the busy set. */
  datatype Result = Result(s: Session, feed: Feed, events: seq<Event>, parked: bool)

  /** `NewsWrapper.__init__`. */
  function Fresh(limit: nat, generation: nat): Session {
    Session(false, false, Login(false, false, false, false, false, false), None, [], limit, limit, generation,
            Wire("", "", []), 0, 0)
  }

  /** `init_connect`: the greeting is the first response to come. */
  function InitConnect(s: Session): Session
    requires s.permits > 0
  {
    s.(isOpen := true, inflight := s.inflight + [None], permits := s.permits - 1)
  }

  /** `Downloader.decode`: in the end the article is registered, or freed for another server. */
  function DecodeEnd(a: Article, jobs: Jobs): Disposal {
    if a in jobs.settled then Registered else Pooled
  }

  /** `discard`. */
  function Discard(article: Option<Article>, retry: bool, required: bool, jobs: Jobs): seq<Event> {
    if article.None? then []
    else
      var a := article.value;
      if a in jobs.removed then [Ended(a, Dropped)]
      else if !retry || (!required && a in jobs.exhausted) then [Ended(a, DecodeEnd(a, jobs))]
      else [Ended(a, Pooled)]
  }

  /** `queue_command`, with its guard for a request that is still waiting: the old article is discarded, and
      rebound as the article of the new command. */
  function QueueCommand(next: Option<Request>, command: string, article: Option<Article>, required: bool, jobs: Jobs): (r: (Option<Request>, seq<Event>)) {
    if next.Some? then
      var waiting := next.value.article;
      (Some(Request(command, waiting)), Discard(waiting, true, required, jobs))
    else (Some(Request(command, article)), [])
  }

  function ArticleCommand(feed: Feed, a: Article, jobs: Jobs): string {
    var verb :=
      if a in jobs.precheck then (if feed.haveStat then "STAT" else "HEAD")
      else if feed.haveBody then "BODY" else "ARTICLE";
    verb + " <" + a.messageId + ">\r\n"
  }

  /** What `finish_connect` leaves: the login, `next_request`, the events, and whether it raised
      `NNTPPermanentError`. */
  datatype LoginResult = LoginResult(login: Login, next: Option<Request>, events: seq<Event>, failed: bool)

  /** The beginning of `finish_connect`: no login is needed, or one is forced. */
  function LoginBegun(login: Login, code: int, config: Config): Login {
    var l1 := if !(config.needsLogin || login.forceLogin) then Login(true, true, true, true, true, login.forceLogin) else login;
    if code == 480 then Login(false, false, false, false, false, true) else l1
  }

  /** The rest of it: the user name, then the password, then the answer to it. */
  function LoginContinued(login: Login, next: Option<Request>, code: int, config: Config, jobs: Jobs): LoginResult {
    var (n3, e3) := if !login.userSent then QueueCommand(next, config.userCommand, None, config.required, jobs) else (next, []);
    var l3 :=
      if !login.userSent then login.(userSent := true)
      else if !login.userOk && code == 381 then login.(userOk := true)
      else if !login.userOk && code == 281 then login.(userOk := true, passSent := true, passOk := true, ready := true)
      else login;
    if l3.userOk && !l3.passSent then
      var (n4, e4) := QueueCommand(n3, config.passCommand, None, config.required, jobs);
      LoginResult(l3.(passSent := true), n4, e3 + e4, false)
    else if l3.userOk && !l3.passOk then
      LoginResult(if code == 281 then l3.(ready := true) else l3, n3, e3, code != 281)
    else LoginResult(l3, n3, e3, false)
  }

  /** `finish_connect`. */
  function FinishConnect(login: Login, next: Option<Request>, code: int, config: Config, jobs: Jobs): LoginResult {
    var begun := LoginBegun(login, code, config);
    if code == 400 || code == 500 || code == 502 then LoginResult(begun, next, [], true)
    else LoginContinued(begun, next, code, config, jobs)
  }

  /** The drain loop of `hard_reset` over the response queue. */
  function DrainEvents(inflight: seq<Option<Article>>, required: bool, jobs: Jobs): seq<Event> {
    if inflight == [] then []
    else Discard(inflight[0], true, required, jobs) + DrainEvents(inflight[1..], required, jobs)
  }

  /** `hard_reset`: `limit` is what `pipelining_requests` says now. */
  function HardReset(s: Session, feed: Feed, limit: nat, required: bool, jobs: Jobs): Result {
    var unsent := if s.next.Some? then Discard(s.next.value.article, true, required, jobs) else [];
    Result(Fresh(limit, s.generation + 1), feed, unsent + DrainEvents(s.inflight, required, jobs), s.isOpen)
  }

  /** `reset_nw`: discard the article that failed, then reset. */
  function ResetNw(s: Session, feed: Feed, article: Option<Article>, retry: bool, limit: nat, required: bool, jobs: Jobs): Result {
    var r := HardReset(s, feed, limit, required, jobs);
    r.(events := Discard(article, retry, required, jobs) + r.events)
  }

  function PoolAll(queue: seq<Article>): seq<Event> {
    if queue == [] then [] else [Ended(queue[0], Pooled)] + PoolAll(queue[1..])
  }

  /** `reset_article_queue`. */
  function ResetQueue(feed: Feed): (r: (Feed, seq<Event>)) {
    (feed.(queue := []), PoolAll(feed.queue))
  }

  // ------------------------------------------------------------------------------------------- handing out articles

  /** What `get_article` finds: whether the server may search now, what `NzbQueue.get_articles` supplies, and whether
      those articles are past the server's retention. */
  datatype Supply = Supply(searchDue: bool, found: seq<Article>, expired: bool)

  function HandAll(articles: seq<Article>): seq<Event> {
    if articles == [] then [] else [Handed(articles[0])] + HandAll(articles[1..])
  }

  /** The loop that takes expired articles off the end of the queue. */
  function DecodeFromEnd(queue: seq<Article>, jobs: Jobs): seq<Event>
    decreases |queue|
  {
    if queue == [] then []
    else
      var a := queue[|queue| - 1];
      [Ended(a, DecodeEnd(a, jobs))] + DecodeFromEnd(queue[..|queue| - 1], jobs)
  }

  /** `Server.get_article`. */
  function GetArticle(feed: Feed, peek: bool, supply: Supply, jobs: Jobs): (r: (Feed, Option<Article>, seq<Event>)) {
    if feed.queue != [] then
      (if peek then feed else feed.(queue := feed.queue[1..]), Some(feed.queue[0]), [])
    else if !supply.searchDue || supply.found == [] then (feed, None, [])
    else
      var handed := HandAll(supply.found);
      var a := supply.found[0];
      if supply.expired then
        var first := if peek then [] else [Ended(a, DecodeEnd(a, jobs))];
        var rest := if peek then supply.found else supply.found[1..];
        (feed.(queue := []), None, handed + first + DecodeFromEnd(rest, jobs))
      else (feed.(queue := if peek then supply.found else supply.found[1..]), Some(a), handed)
  }

  /** `prepare_request`; `mayWork` is that no pause, shutdown or disconnect is in force. */
  function PrepareRequest(s: Session, feed: Feed, mayWork: bool, supply: Supply, required: bool, jobs: Jobs): (r: (Session, Feed, seq<Event>, bool)) {
    if s.login.ready || s.inflight == [] then
      if feed.active && !feed.restart && mayWork then
        if s.next.None? then
          var (feed1, next, events) := GetArticle(feed, false, supply, jobs);
          if next.Some? then
            var request := Request(ArticleCommand(feed1, next.value, jobs), next);
            (s.(next := Some(request)), feed1, events + [Assigned(next.value)], true)
          else (s, feed1, events, s.inflight != [])
        else (s, feed, [], true)
      else if s.next.Some? && s.next.value.article.Some? then
        (s.(next := None), feed, Discard(s.next.value.article, true, required, jobs), s.inflight != [])
      else (s, feed, [], s.next.Some? || s.inflight != [])
    else (s, feed, [], s.next.Some? || s.inflight != [])
  }

  // ------------------------------------------------------------------------------------------------------- writing

  /** What `send` does with the bytes it is given: take some of them, raise would-block, or fail for good. */
  datatype Sending = Takes(n: nat) | WouldBlock | Breaks

  function TakenOf(sending: Sending, data: string): nat {
    if sending.Takes? then (if sending.n <= |data| then sending.n else |data|) else 0
  }

  /** What one `write` meets: its two sends, the feed, the jobs, and the limit a reset would read. */
  datatype WriteEnv = WriteEnv(flush: Sending, send: Sending, mayWork: bool, supply: Supply, jobs: Jobs, limit: nat)

  /** Sending the request that is waiting, with a permit already taken. */
  function SendNext(s: Session, feed: Feed, required: bool, env: WriteEnv): Result
    requires s.next.Some? && s.permits > 0
  {
    var Request(command, article) := s.next.value;
    if article.Some? && (article.value in env.jobs.removed || article.value in env.jobs.paused) then
      Result(s.(next := None), feed, Discard(article, true, required, env.jobs), false)
    else if env.send.WouldBlock? then Result(s.(permits := s.permits - 1, leaked := s.leaked + 1), feed, [], false)
    else if env.send.Breaks? then ResetNw(s, feed, None, true, env.limit, required, env.jobs)
    else
      var sent := TakenOf(env.send, command);
      Result(
        s.(permits := s.permits - 1, inflight := s.inflight + [article], next := None,
           wire := Wire(s.wire.accepted + command[..sent], command[sent..], s.wire.committed + [s.next.value])),
        feed, if article.Some? then [Sent(article.value)] else [], false)
  }

  /** Sending what is left of the last command. */
  function FlushBuffer(wire: Wire, sending: Sending): Wire {
    var sent := TakenOf(sending, wire.buffer);
    wire.(accepted := wire.accepted + wire.buffer[..sent], buffer := wire.buffer[sent..])
  }

  /** The second half of `write`: prepare a request and send it if a permit is free. */
  function WriteRequest(s: Session, feed: Feed, required: bool, env: WriteEnv): Result {
    var (s1, feed1, events, work) := PrepareRequest(s, feed, env.mayWork, env.supply, required, env.jobs);
    if !work then Result(s1, feed1, events, true)
    else if s1.next.None? || s1.permits == 0 then Result(s1, feed1, events, false)
    else
      var r := SendNext(s1, feed1, required, env);
      r.(events := events + r.events)
  }

  /** `write`. */
  function Write(s: Session, feed: Feed, required: bool, env: WriteEnv): Result {
    if s.wire.buffer != "" && env.flush.WouldBlock? then Result(s, feed, [], false)
    else if s.wire.buffer != "" && env.flush.Breaks? then ResetNw(s, feed, None, true, env.limit, required, env.jobs)
    else
      var s1 := s.(wire := FlushBuffer(s.wire, env.flush));
      if s1.wire.buffer != "" then Result(s1, feed, [], false)
      else WriteRequest(s1, feed, required, env)
  }

  // ------------------------------------------------------------------------------------------------------- reading

  /** What `finish_connect_nw` does about a permanent error: nothing, reset the connection, or also deactivate the
      server. */
  datatype Penalty = NoReset | Reset | Deactivate

  datatype Response = Response(code: int, penalty: Penalty, jobs: Jobs)

  /** What `finish_connect_nw` does about a permanent error. */
  function Penalize(s: Session, feed: Feed, response: Response, required: bool, limit: nat): Result {
    if response.penalty.NoReset? then Result(s, feed, [], false)
    else
      var (feed1, pooled) :=
        if response.penalty.Deactivate? then (ResetQueue(feed).0.(active := false), ResetQueue(feed).1) else (feed, []);
      var r := ResetNw(s, feed1, None, true, limit, required, response.jobs);
      r.(events := pooled + r.events)
  }

  /** `finish_connect_nw`; also whether it returned True. */
  function FinishConnectNw(s: Session, feed: Feed, response: Response, config: Config, limit: nat): (r: (Result, bool)) {
    var l := FinishConnect(s.login, s.next, response.code, config, response.jobs);
    var s1 := s.(login := l.login, next := l.next);
    if !l.failed then (Result(s1, feed, l.events, false), true)
    else
      var r := Penalize(s1, feed, response, config.required, limit);
      (r.(events := l.events + r.events), false)
  }

  /** The response goes to `finish_connect` rather than to the article. */
  predicate IsLoginResponse(ready: bool, code: int, article: Option<Article>) {
    && !((code == 220 || code == 222) && article.Some?)
    && (!ready || article.None? || code == 281 || code == 381 || code == 480 || code == 481 || code == 482)
  }

  /** What the response to a request for an article does. */
  function ArticleResponse(s: Session, feed: Feed, response: Response, a: Article, config: Config, limit: nat): Result {
    var code := response.code;
    if code == 220 || code == 222 || code == 223 || code == 411 || code == 423 || code == 430 || code == 451 then
      Result(s, feed, [Ended(a, DecodeEnd(a, response.jobs))], false)
    else if code == 500 then
      var feed1 := if a in response.jobs.precheck then feed.(haveStat := false) else feed.(haveBody := false);
      Result(s, feed1, Discard(Some(a), true, config.required, response.jobs), false)
    else ResetNw(s, feed, Some(a), true, limit, config.required, response.jobs)
  }

  /** What a response about the login does: the article it came for, if any, goes back first. */
  function LoginResponse(s: Session, feed: Feed, response: Response, article: Option<Article>, config: Config, limit: nat): Result {
    var discarded := Discard(article, true, config.required, response.jobs);
    var (r, _) := FinishConnectNw(s, feed, response, config, limit);
    r.(events := discarded + r.events)
  }

  /** `on_response`, for the entry popped off the queue. */
  function OnResponse(s: Session, feed: Feed, response: Response, article: Option<Article>, config: Config, limit: nat): Result {
    var s1 := s.(permits := s.permits + 1);
    if IsLoginResponse(s.login.ready, response.code, article) then LoginResponse(s1, feed, response, article, config, limit)
    else ArticleResponse(s1, feed, response, article.value, config, limit)
  }

  /** One turn of the response loop of `read`, for a reader that started in `generation`. */
  function ReadOne(s: Session, feed: Feed, generation: nat, response: Response, config: Config, limit: nat): Result {
    if s.generation != generation || s.inflight == [] then Result(s, feed, [], false)
    else
      var s1 := s.(inflight := s.inflight[1..], popped := s.popped + 1);
      OnResponse(s1, feed, response, s.inflight[0], config, limit)
  }

  /** The response loop; it ends when the connection was reset or nothing is in flight. */
  function ReadAll(s: Session, feed: Feed, generation: nat, responses: seq<Response>, config: Config, limit: nat): Result
    decreases |responses|
  {
    if responses == [] then Result(s, feed, [], false)
    else if s.generation != generation || s.inflight == [] then Result(s, feed, [], false)
    else
      var r := ReadOne(s, feed, generation, responses[0], config, limit);
      var rest := ReadAll(r.s, r.feed, generation, responses[1..], config, limit);
      rest.(events := r.events + rest.events, parked := r.parked || rest.parked)
  }

  /** What one `read` meets; `morePending` is undelivered data in the TLS layer. */
  datatype ReadEnv = ReadEnv(responses: seq<Response>, mayWork: bool, supply: Supply, jobs: Jobs, limit: nat, morePending: bool)

  /** The end of `read`: the next request is prepared, or the socket is removed. */
  function EndRead(s: Session, feed: Feed, required: bool, env: ReadEnv): Result {
    var (s1, feed1, events, work) := PrepareRequest(s, feed, env.mayWork, env.supply, required, env.jobs);
    Result(s1, feed1, events, !work && !env.morePending && s1.isOpen)
  }

  /** `read`, once data was received. Without a complete response there is nothing to do; the loop returns from inside
      when the connection was reset or when a response comes with nothing in flight; otherwise the next request is
      prepared. */
  function Read(s: Session, feed: Feed, generation: nat, config: Config, env: ReadEnv): Result {
    if !s.isOpen || env.responses == [] then Result(s, feed, [], false)
    else
      var r := ReadAll(s, feed, generation, env.responses, config, env.limit);
      if r.s.generation != generation || StoppedEarly(s, feed, generation, env.responses, config, env.limit) then r
      else
        var rest := EndRead(r.s, r.feed, config.required, env);
        rest.(events := r.events + rest.events, parked := r.parked || rest.parked)
  }

  /** A response came for which nothing was in flight. */
  predicate StoppedEarly(s: Session, feed: Feed, generation: nat, responses: seq<Response>, config: Config, limit: nat)
    decreases |responses|
  {
    responses != [] &&
    (s.generation != generation || s.inflight == [] ||
     var r := ReadOne(s, feed, generation, responses[0], config, limit);
     StoppedEarly(r.s, r.feed, generation, responses[1..], config, limit))
  }
}
