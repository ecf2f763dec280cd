/**
 Both ends of a connection: SABnzbd's side is a `Session`, the other end is a news server that reads the byte stream
 line by line and answers the greeting and then each command once and in order (section 3.5 of RFC 3977).
 */
module Duplex {
  import opened Options
  import opened Connections
  import opened Sessions

  // ------------------------------------------------------------------------------------------ what the peer reads

  /** Position just after the first CR LF at or after i. */
  function LineEnd(b: string, i: nat): (r: Option<nat>)
    requires i <= |b|
    ensures r.Some? ==> i + 2 <= r.value <= |b|
    decreases |b| - i
  {
    if i + 1 >= |b| then None
    else if b[i] == '\r' && b[i + 1] == '\n' then Some(i + 2)
    else LineEnd(b, i + 1)
  }

  /** The complete lines in the stream so far. */
  function Lines(b: string): seq<string>
    decreases |b|
  {
    match LineEnd(b, 0)
    case None => []
    case Some(end) => [b[..end]] + Lines(b[end..])
  }

  /** A command is one line: it ends in CR LF and has no other. */
  predicate IsLine(c: string) {
    && |c| >= 2 && c[|c| - 2] == '\r' && c[|c| - 1] == '\n'
    && forall i :: 0 <= i < |c| - 2 ==> !(c[i] == '\r' && c[i + 1] == '\n')
  }

  predicate AllLines(requests: seq<Request>) {
    forall i :: 0 <= i < |requests| ==> IsLine(requests[i].command)
  }

  lemma {:induction false} LineEndOf(c: string, t: string, i: nat)
    requires IsLine(c) && i <= |c| - 2
    ensures LineEnd(c + t, i) == Some(|c|)
    decreases |c| - i
  {
    if i < |c| - 2 {
      assert !(c[i] == '\r' && c[i + 1] == '\n');
      LineEndOf(c, t, i + 1);
    }
  }

  lemma {:induction false} NoLineEnd(c: string, n: nat, i: nat)
    requires IsLine(c) && i <= n < |c|
    ensures LineEnd(c[..n], i) == None
    decreases n - i
  {
    if i + 1 < n {
      NoLineEnd(c, n, i + 1);
    }
  }

  function Commands(requests: seq<Request>): seq<string> {
    seq(|requests|, i requires 0 <= i < |requests| => requests[i].command)
  }

  /** How many of the committed commands have reached the peer whole. */
  function Arrived(w: Wire): nat {
    if w.buffer == "" || w.committed == [] then |w.committed| else |w.committed| - 1
  }

  lemma {:induction false} BytesAtLeastLast(requests: seq<Request>)
    requires requests != []
    ensures |Bytes(requests)| >= |requests[|requests| - 1].command|
  {
    if |requests| > 1 {
      BytesAtLeastLast(requests[1..]);
    }
  }

  /** The first command has not arrived whole: it is the only one, and there is no line yet. */
  lemma FirstIsUnfinished(w: Wire)
    requires WireExact(w) && AllLines(w.committed) && w.committed != [] && |w.accepted| < |w.committed[0].command|
    ensures Lines(w.accepted) == [] && |w.committed| == 1 && Arrived(w) == 0
  {
    var c, later := w.committed[0].command, w.committed[1..];
    assert Bytes(w.committed) == c + Bytes(later);
    if later != [] {
      BytesAtLeastLast(later);
      assert false;
    }
    assert w.accepted == (w.accepted + w.buffer)[..|w.accepted|] == c[..|w.accepted|];
    NoLineEnd(c, |w.accepted|, 0);
  }

  /** The wire without its first command. */
  function Later(w: Wire): Wire
    requires w.committed != [] && |w.accepted| >= |w.committed[0].command|
  {
    Wire(w.accepted[|w.committed[0].command|..], w.buffer, w.committed[1..])
  }

  /** The first command has arrived whole: it is the first line, and the rest is a wire of its own. */
  lemma FirstIsALine(w: Wire)
    requires WireExact(w) && AllLines(w.committed) && w.committed != [] && |w.accepted| >= |w.committed[0].command|
    ensures WireExact(Later(w)) && Lines(w.accepted) == [w.committed[0].command] + Lines(Later(w).accepted)
    ensures Arrived(w) == 1 + Arrived(Later(w))
  {
    var c, rest := w.committed[0].command, Later(w).accepted;
    assert w.accepted[..|c|] == (w.accepted + w.buffer)[..|c|] == c;
    assert w.accepted == c + rest;
    assert rest + w.buffer == (w.accepted + w.buffer)[|c|..] == Bytes(w.committed[1..]);
    assert w.committed[1..] == [] ==> |rest + w.buffer| == 0;
    LineEndOf(c, rest, 0);
  }

  /** The lines the peer reads are the committed commands, in order: none is split, dropped or mixed with another,
      whatever the sequence of short sends and errors was; only the last may still be incomplete. */
  lemma {:induction false} PeerReadsCommands(w: Wire)
    requires WireExact(w) && AllLines(w.committed)
    ensures Lines(w.accepted) == Commands(w.committed[..Arrived(w)])
    decreases |w.committed|
  {
    if w.committed == [] {
      assert w.accepted == "";
    } else if |w.accepted| < |w.committed[0].command| {
      FirstIsUnfinished(w);
    } else {
      FirstIsALine(w);
      PeerReadsCommands(Later(w));
      assert Commands(w.committed[..Arrived(w)])
          == [w.committed[0].command] + Commands(w.committed[1..][..Arrived(Later(w))]);
    }
  }

  // ------------------------------------------------------------------------------------------------------ the pair

  /** A connection, and how many responses its peer has sent (the greeting included). */
  datatype Pair = Pair(s: Session, feed: Feed, answered: nat)

  datatype Step =
    | Connect
    | Prepare(mayWork: bool, supply: Supply, jobs: Jobs)
    | WriteStep(meets: WriteEnv)
    | ReadStep(generation: nat, received: ReadEnv)
    | Answer                                        // the peer answers the next line it has
    | ResetStep(limit: nat, jobs: Jobs)

  predicate GoodSupply(supply: Supply) {
    forall a :: a in supply.found ==> '\n' !in a.messageId
  }

  predicate GoodConfig(config: Config) {
    IsLine(config.userCommand) && IsLine(config.passCommand)
  }

  /** What a step needs. The peer answers only what it has read; a reader of this generation gets responses the peer
      has sent on this connection, while a reader left over from an earlier generation may get anything; message-ids
      are single lines; no 480 surprises a ready connection with an article waiting. */
  predicate Enabled(p: Pair, step: Step, config: Config) {
    match step
    case Connect => !p.s.isOpen && p.s.limit > 0 && p.s.leaked == 0
    case Prepare(_, supply, _) => p.s.isOpen && GoodSupply(supply)
    case WriteStep(env) => p.s.isOpen && GoodSupply(env.supply)
    case ReadStep(generation, env) =>
      && GoodSupply(env.supply) && Unsurprised(p.s, p.feed, generation, env.responses, config, env.limit)
      && (generation == p.s.generation ==> p.s.popped + |env.responses| <= p.answered)
    case Answer => p.s.isOpen && p.answered <= |Lines(p.s.wire.accepted)|
    case ResetStep(_, _) => true
  }

  /** After a reset the next connection has a new peer, that has sent nothing. */
  function Moved(p: Pair, s: Session, feed: Feed): Pair {
    Pair(s, feed, if s.generation == p.s.generation then p.answered else 0)
  }

  function Next(p: Pair, step: Step, config: Config): Pair
    requires Enabled(p, step, config)
  {
    match step
    case Connect => if p.s.permits > 0 then p.(s := InitConnect(p.s)) else p
    case Prepare(mayWork, supply, jobs) =>
      var (s, feed, _, _) := PrepareRequest(p.s, p.feed, mayWork, supply, config.required, jobs); Moved(p, s, feed)
    case WriteStep(env) => var r := Write(p.s, p.feed, config.required, env); Moved(p, r.s, r.feed)
    case ReadStep(generation, env) => var r := Read(p.s, p.feed, generation, config, env); Moved(p, r.s, r.feed)
    case Answer => p.(answered := p.answered + 1)
    case ResetStep(limit, jobs) =>
      var r := HardReset(p.s, p.feed, limit, config.required, jobs); Moved(p, r.s, r.feed)
  }

  predicate GoodFeed(feed: Feed) {
    forall a :: a in feed.queue ==> '\n' !in a.messageId
  }

  predicate PairOk(p: Pair) {
    && SessionOk(p.s) && GoodFeed(p.feed) && AllLines(p.s.wire.committed)
    && (p.s.next.Some? ==> IsLine(p.s.next.value.command))
    && p.s.popped <= p.answered
    && p.answered <= if p.s.isOpen then 1 + Arrived(p.s.wire) else 0
  }

  lemma CommandIsLine(feed: Feed, a: Article, jobs: Jobs)
    requires '\n' !in a.messageId
    ensures IsLine(ArticleCommand(feed, a, jobs))
  {
    var c := ArticleCommand(feed, a, jobs);
    var verb :=
      if a in jobs.precheck then (if feed.haveStat then "STAT" else "HEAD")
      else if feed.haveBody then "BODY" else "ARTICLE";
    assert c == verb + " <" + a.messageId + ">\r\n";
    forall i | 0 <= i < |c| - 1 ensures c[i] != '\n' {
      if |verb| + 2 <= i < |verb| + 2 + |a.messageId| {
        assert c[i] == a.messageId[i - |verb| - 2];
      }
    }
  }

  lemma PrepareKeepsLines(s: Session, feed: Feed, mayWork: bool, supply: Supply, required: bool, jobs: Jobs)
    requires GoodFeed(feed) && GoodSupply(supply) && (s.next.Some? ==> IsLine(s.next.value.command))
    ensures var (t, feed1, _, _) := PrepareRequest(s, feed, mayWork, supply, required, jobs);
      && GoodFeed(feed1) && t == s.(next := t.next) && (t.next.Some? ==> IsLine(t.next.value.command))
  {
    var (feed1, found, _) := GetArticle(feed, false, supply, jobs);
    if found.Some? {
      CommandIsLine(feed1, found.value, jobs);
    }
  }

  /** What a write leaves of the lines: a fresh connection, or the same one with more of its commands arrived. */
  predicate LinesGrow(s: Session, t: Session, limit: nat) {
    t == Fresh(limit, s.generation + 1) ||
    (AllLines(t.wire.committed) && (t.next.Some? ==> IsLine(t.next.value.command))
     && t.isOpen && t.generation == s.generation && t.popped == s.popped && Arrived(s.wire) <= Arrived(t.wire))
  }

  lemma SendNextLines(s: Session, feed: Feed, required: bool, env: WriteEnv)
    requires s.isOpen && s.next.Some? && s.permits > 0 && s.wire.buffer == ""
    requires AllLines(s.wire.committed) && IsLine(s.next.value.command)
    ensures LinesGrow(s, SendNext(s, feed, required, env).s, env.limit)
  {
    SendNextCases(s, feed, required, env);
  }

  lemma WriteRequestLines(s: Session, feed: Feed, required: bool, env: WriteEnv)
    requires s.isOpen && s.wire.buffer == "" && GoodFeed(feed) && GoodSupply(env.supply) && AllLines(s.wire.committed)
    requires s.next.Some? ==> IsLine(s.next.value.command)
    ensures var r := WriteRequest(s, feed, required, env); GoodFeed(r.feed) && LinesGrow(s, r.s, env.limit)
  {
    PrepareKeepsLines(s, feed, env.mayWork, env.supply, required, env.jobs);
    var (s1, feed1, _, work) := PrepareRequest(s, feed, env.mayWork, env.supply, required, env.jobs);
    if work && s1.next.Some? && s1.permits > 0 {
      SendNextLines(s1, feed1, required, env);
      SendNextFeed(s1, feed1, required, env);
    }
  }

  lemma WriteKeepsLines(s: Session, feed: Feed, required: bool, env: WriteEnv)
    requires SessionOk(s) && s.isOpen && GoodFeed(feed) && GoodSupply(env.supply) && AllLines(s.wire.committed)
    requires s.next.Some? ==> IsLine(s.next.value.command)
    ensures var r := Write(s, feed, required, env); GoodFeed(r.feed) && LinesGrow(s, r.s, env.limit)
  {
    var s1 := s.(wire := FlushBuffer(s.wire, env.flush));
    FlushArrives(s.wire, env.flush);
    if s1.wire.buffer == "" {
      WriteRequestLines(s1, feed, required, env);
    }
    WriteCases(s, feed, required, env);
    CasesKeepLines(s, s1, feed, required, env, Write(s, feed, required, env));
  }

  lemma CasesKeepLines(s: Session, s1: Session, feed: Feed, required: bool, env: WriteEnv, r: Result)
    requires s.isOpen && GoodFeed(feed) && AllLines(s.wire.committed) && (s.next.Some? ==> IsLine(s.next.value.command))
    requires s1 == s.(wire := s1.wire) && s1.wire.committed == s.wire.committed && Arrived(s.wire) <= Arrived(s1.wire)
    requires
      || (r.s == s && r.feed == feed)
      || (r.s == Fresh(env.limit, s.generation + 1) && r.feed == feed)
      || (r.s == s1 && r.feed == feed)
      || (GoodFeed(r.feed) && LinesGrow(s1, r.s, env.limit))
    ensures GoodFeed(r.feed) && LinesGrow(s, r.s, env.limit)
  {
  }

  lemma FlushArrives(w: Wire, sending: Sending)
    ensures var w1 := FlushBuffer(w, sending); w1.committed == w.committed && Arrived(w) <= Arrived(w1)
  {
    assert w.buffer == "" ==> w.buffer[TakenOf(sending, w.buffer)..] == "";
  }

  /** A write stops before the buffer is empty, or it breaks, or it goes on to the next request. */
  lemma WriteCases(s: Session, feed: Feed, required: bool, env: WriteEnv)
    ensures var r, s1 := Write(s, feed, required, env), s.(wire := FlushBuffer(s.wire, env.flush));
      || (r.s == s && r.feed == feed)
      || (r.s == Fresh(env.limit, s.generation + 1) && r.feed == feed)
      || (r.s == s1 && r.feed == feed)
      || (s1.wire.buffer == "" && r == WriteRequest(s1, feed, required, env))
  {
  }

  lemma SendNextFeed(s: Session, feed: Feed, required: bool, env: WriteEnv)
    requires s.next.Some? && s.permits > 0
    ensures SendNext(s, feed, required, env).feed == feed
  {
  }

  /** A penalty queues nothing, neither articles nor commands. */
  lemma PenaltyQueuesNothing(s: Session, feed: Feed, response: Response, required: bool, limit: nat)
    ensures var r := Penalize(s, feed, response, required, limit);
      (r.feed.queue == feed.queue || r.feed.queue == []) && (r.s.next == s.next || r.s.next.None?)
  {
  }

  lemma FinishConnectLines(s: Session, feed: Feed, response: Response, config: Config, limit: nat)
    requires SessionOk(s) && s.isOpen && !Surprised(s.login, s.next, response.code)
    requires !s.login.ready ==> !HoldsArticle(s.next)
    requires GoodFeed(feed) && GoodConfig(config) && (s.next.Some? ==> IsLine(s.next.value.command))
    ensures var r := FinishConnectNw(s, feed, response, config, limit).0;
      GoodFeed(r.feed) && (r.s.next.Some? ==> IsLine(r.s.next.value.command))
  {
    FinishConnectKeeps(s.login, s.next, response.code, config, response.jobs);
    var l := FinishConnect(s.login, s.next, response.code, config, response.jobs);
    PenaltyQueuesNothing(s.(login := l.login, next := l.next), feed, response, config.required, limit);
  }

  lemma ReadOneLines(s: Session, feed: Feed, generation: nat, response: Response, config: Config, limit: nat)
    requires SessionOk(s) && !Surprised(s.login, s.next, response.code)
    requires GoodFeed(feed) && GoodConfig(config) && (s.next.Some? ==> IsLine(s.next.value.command))
    ensures var r := ReadOne(s, feed, generation, response, config, limit);
      GoodFeed(r.feed) && (r.s.next.Some? ==> IsLine(r.s.next.value.command))
  {
    if s.generation == generation && s.inflight != [] {
      var s1 := s.(inflight := s.inflight[1..], popped := s.popped + 1);
      var s2 := s1.(permits := s1.permits + 1);
      assert s.inflight[1..] == Expected(s)[s.popped..][1..] == Expected(s)[s.popped + 1..];
      FinishConnectLines(s2, feed, response, config, limit);
      OnResponseCases(s1, feed, response, s.inflight[0], config, limit);
    }
  }

  lemma {:induction false} ReadAllLines(s: Session, feed: Feed, generation: nat, responses: seq<Response>, config: Config, limit: nat)
    requires SessionOk(s) && Unsurprised(s, feed, generation, responses, config, limit)
    requires GoodFeed(feed) && GoodConfig(config) && (s.next.Some? ==> IsLine(s.next.value.command))
    ensures var r := ReadAll(s, feed, generation, responses, config, limit);
      GoodFeed(r.feed) && (r.s.next.Some? ==> IsLine(r.s.next.value.command))
    decreases |responses|
  {
    if responses != [] && s.generation == generation && s.inflight != [] {
      ReadOneKeeps(s, feed, generation, responses[0], config, limit);
      ReadOneLines(s, feed, generation, responses[0], config, limit);
      var r := ReadOne(s, feed, generation, responses[0], config, limit);
      FreshIsOk(limit, s.generation + 1);
      ReadAllLines(r.s, r.feed, generation, responses[1..], config, limit);
    }
  }

  /** Every response that the peer has sent and that is not read yet has its entry in the queue. */
  lemma EnoughInFlight(p: Pair)
    requires PairOk(p)
    ensures p.answered - p.s.popped <= |p.s.inflight|
  {
  }

  lemma ReadStepKeeps(p: Pair, generation: nat, env: ReadEnv, config: Config)
    requires PairOk(p) && GoodConfig(config) && Enabled(p, ReadStep(generation, env), config)
    ensures PairOk(Next(p, ReadStep(generation, env), config))
  {
    ReadKeeps(p.s, p.feed, generation, config, env);
    ReadWire(p, generation, env, config);
    ReadLines(p, generation, env, config);
  }

  /** A read leaves a fresh connection, or the same one with the same wire and every response paired. */
  lemma ReadWire(p: Pair, generation: nat, env: ReadEnv, config: Config)
    requires PairOk(p) && Enabled(p, ReadStep(generation, env), config)
    ensures var t := Read(p.s, p.feed, generation, config, env).s;
      || t == Fresh(env.limit, p.s.generation + 1).(next := t.next)
      || (t.generation == p.s.generation && t.isOpen == p.s.isOpen && t.wire == p.s.wire && t.popped <= p.answered)
  {
    EnoughInFlight(p);
    ReadAllKeeps(p.s, p.feed, generation, env.responses, config, env.limit);
    ReadCases(p.s, p.feed, generation, config, env);
    var r := ReadAll(p.s, p.feed, generation, env.responses, config, env.limit);
    PrepareSetsNext(r.s, r.feed, env.mayWork, env.supply, config.required, env.jobs);
  }

  lemma PrepareSetsNext(s: Session, feed: Feed, mayWork: bool, supply: Supply, required: bool, jobs: Jobs)
    ensures var t := PrepareRequest(s, feed, mayWork, supply, required, jobs).0; t == s.(next := t.next)
  {
  }

  lemma ReadLines(p: Pair, generation: nat, env: ReadEnv, config: Config)
    requires PairOk(p) && GoodConfig(config) && Enabled(p, ReadStep(generation, env), config)
    ensures var r := Read(p.s, p.feed, generation, config, env); GoodFeed(r.feed) && (r.s.next.Some? ==> IsLine(r.s.next.value.command))
  {
    ReadAllLines(p.s, p.feed, generation, env.responses, config, env.limit);
    ReadCases(p.s, p.feed, generation, config, env);
    var r := ReadAll(p.s, p.feed, generation, env.responses, config, env.limit);
    PrepareKeepsLines(r.s, r.feed, env.mayWork, env.supply, config.required, env.jobs);
  }

  /** A read ends with what its loop left, or with a request prepared on top of that. */
  lemma ReadCases(s: Session, feed: Feed, generation: nat, config: Config, env: ReadEnv)
    ensures var r, t := ReadAll(s, feed, generation, env.responses, config, env.limit), Read(s, feed, generation, config, env);
      || (t.s == s && t.feed == feed)
      || (s.isOpen && t.s == r.s && t.feed == r.feed)
      || (s.isOpen && r.s.generation == generation &&
          var q := PrepareRequest(r.s, r.feed, env.mayWork, env.supply, config.required, env.jobs);
          t.s == q.0 && t.feed == q.1)
  {
  }

  lemma PrepareStepKeeps(p: Pair, mayWork: bool, supply: Supply, jobs: Jobs, config: Config)
    requires PairOk(p) && GoodConfig(config) && Enabled(p, Prepare(mayWork, supply, jobs), config)
    ensures PairOk(Next(p, Prepare(mayWork, supply, jobs), config))
  {
    PrepareKeeps(p.s, p.feed, mayWork, supply, config.required, jobs);
    PrepareKeepsLines(p.s, p.feed, mayWork, supply, config.required, jobs);
  }

  lemma WriteStepKeeps(p: Pair, env: WriteEnv, config: Config)
    requires PairOk(p) && GoodConfig(config) && Enabled(p, WriteStep(env), config)
    ensures PairOk(Next(p, WriteStep(env), config))
  {
    WriteKeeps(p.s, p.feed, config.required, env);
    WriteKeepsLines(p.s, p.feed, config.required, env);
  }

  lemma OtherStepsKeep(p: Pair, step: Step, config: Config)
    requires PairOk(p) && GoodConfig(config) && Enabled(p, step, config) && (step.Connect? || step.Answer? || step.ResetStep?)
    ensures PairOk(Next(p, step, config))
  {
    if step.Connect? {
      ConnectStepKeeps(p, config);
    } else if step.Answer? {
      AnswerStepKeeps(p, config);
    } else {
      ResetStepKeeps(p, step.limit, step.jobs, config);
    }
  }

  lemma ConnectStepKeeps(p: Pair, config: Config)
    requires PairOk(p) && Enabled(p, Connect, config)
    ensures PairOk(Next(p, Connect, config))
  {
    InitConnectKeeps(p.s);
    assert InitConnect(p.s).wire == p.s.wire && p.answered == 0;
  }

  lemma AnswerStepKeeps(p: Pair, config: Config)
    requires PairOk(p) && Enabled(p, Answer, config)
    ensures PairOk(Next(p, Answer, config))
  {
    PeerReadsCommands(p.s.wire);
    assert |Lines(p.s.wire.accepted)| == Arrived(p.s.wire);
  }

  lemma ResetGives(p: Pair, limit: nat, jobs: Jobs, config: Config)
    ensures Next(p, ResetStep(limit, jobs), config) == Pair(Fresh(limit, p.s.generation + 1), p.feed, 0)
  {
  }

  lemma ResetStepKeeps(p: Pair, limit: nat, jobs: Jobs, config: Config)
    requires GoodFeed(p.feed)
    ensures PairOk(Next(p, ResetStep(limit, jobs), config))
  {
    ResetGives(p, limit, jobs, config);
    FreshPairOk(limit, p.s.generation + 1, p.feed);
  }

  lemma FreshPairOk(limit: nat, generation: nat, feed: Feed)
    requires GoodFeed(feed)
    ensures PairOk(Pair(Fresh(limit, generation), feed, 0))
  {
    FreshIsOk(limit, generation);
  }

  lemma StepKeeps(p: Pair, step: Step, config: Config)
    requires PairOk(p) && GoodConfig(config) && Enabled(p, step, config)
    ensures PairOk(Next(p, step, config))
  {
    if step.Prepare? {
      PrepareStepKeeps(p, step.mayWork, step.supply, step.jobs, config);
    } else if step.WriteStep? {
      WriteStepKeeps(p, step.meets, config);
    } else if step.ReadStep? {
      ReadStepKeeps(p, step.generation, step.received, config);
    } else {
      OtherStepsKeep(p, step, config);
    }
  }

  predicate Runs(p: Pair, steps: seq<Step>, config: Config)
    decreases |steps|
  {
    steps == [] || (Enabled(p, steps[0], config) && Runs(Next(p, steps[0], config), steps[1..], config))
  }

  function After(p: Pair, steps: seq<Step>, config: Config): Pair
    requires Runs(p, steps, config)
    decreases |steps|
  {
    if steps == [] then p else After(Next(p, steps[0], config), steps[1..], config)
  }

  lemma {:induction false} RunKeeps(p: Pair, steps: seq<Step>, config: Config)
    requires PairOk(p) && GoodConfig(config) && Runs(p, steps, config)
    ensures PairOk(After(p, steps, config))
    decreases |steps|
  {
    if steps != [] {
      StepKeeps(p, steps[0], config);
      RunKeeps(Next(p, steps[0], config), steps[1..], config);
    }
  }

  // ------------------------------------------------------------------------------------------------- main theorems

  /** The response that comes next is paired with the article of the command that the peer is answering: the greeting
      with none, the k-th other response with the article of the k-th line the peer read. */
  predicate NextResponseIsPaired(p: Pair) {
    p.s.popped < p.answered ==>
      && p.s.inflight != []
      && (p.s.popped == 0 ==> p.s.inflight[0] == None)
      && (p.s.popped > 0 ==>
        && p.s.popped - 1 < |Lines(p.s.wire.accepted)| && p.s.popped - 1 < |p.s.wire.committed|
        && Lines(p.s.wire.accepted)[p.s.popped - 1] == p.s.wire.committed[p.s.popped - 1].command
        && p.s.inflight[0] == p.s.wire.committed[p.s.popped - 1].article)
  }

  lemma PairedWhenOk(p: Pair)
    requires PairOk(p)
    ensures NextResponseIsPaired(p)
  {
    PeerReadsCommands(p.s.wire);
    EnoughInFlight(p);
    if p.s.popped < p.answered {
      assert p.s.inflight[0] == Expected(p.s)[p.s.popped];
    }
  }

  /** On every run, from a fresh connection and across resets, every response that arrives finds its own request at
      the head of the queue. */
  lemma EveryResponseFindsItsRequest(limit: nat, feed: Feed, steps: seq<Step>, config: Config)
    requires GoodFeed(feed) && GoodConfig(config) && Runs(Pair(Fresh(limit, 0), feed, 0), steps, config)
    ensures NextResponseIsPaired(After(Pair(Fresh(limit, 0), feed, 0), steps, config))
  {
    var p := Pair(Fresh(limit, 0), feed, 0);
    FreshIsOk(limit, 0);
    RunKeeps(p, steps, config);
    PairedWhenOk(After(p, steps, config));
  }

  /** On every run the lines the peer has read are the committed commands, and the permits are exact. */
  lemma EveryRunKeepsTheWire(limit: nat, feed: Feed, steps: seq<Step>, config: Config)
    requires GoodFeed(feed) && GoodConfig(config) && Runs(Pair(Fresh(limit, 0), feed, 0), steps, config)
    ensures var s := After(Pair(Fresh(limit, 0), feed, 0), steps, config).s;
      && s.wire.accepted + s.wire.buffer == Bytes(s.wire.committed)
      && Lines(s.wire.accepted) == Commands(s.wire.committed[..Arrived(s.wire)])
      && |s.inflight| <= s.limit && s.permits + |s.inflight| + s.leaked == s.limit
  {
    var p := Pair(Fresh(limit, 0), feed, 0);
    FreshIsOk(limit, 0);
    RunKeeps(p, steps, config);
    PeerReadsCommands(After(p, steps, config).s.wire);
  }

  /** A reader left over from before a reset pops nothing and changes nothing, whatever it has received. */
  lemma StaleReaderDoesNothing(p: Pair, generation: nat, env: ReadEnv, config: Config)
    requires PairOk(p) && generation != p.s.generation
    ensures Read(p.s, p.feed, generation, config, env) == Result(p.s, p.feed, [], false)
  {
  }

  /** A reset always starts a generation that no earlier reader has. */
  lemma {:induction false} GenerationsOnlyRise(p: Pair, steps: seq<Step>, config: Config)
    requires PairOk(p) && GoodConfig(config) && Runs(p, steps, config)
    ensures After(p, steps, config).s.generation >= p.s.generation
    ensures ResetStepIn(steps) ==> After(p, steps, config).s.generation > p.s.generation
    decreases |steps|
  {
    if steps != [] {
      var q := Next(p, steps[0], config);
      StepKeeps(p, steps[0], config);
      StepRaises(p, steps[0], config);
      GenerationsOnlyRise(q, steps[1..], config);
      ResetNowOrLater(steps);
    }
  }

  lemma ResetNowOrLater(steps: seq<Step>)
    requires steps != []
    ensures ResetStepIn(steps) ==> steps[0].ResetStep? || ResetStepIn(steps[1..])
  {
    if i :| 0 < i < |steps| && steps[i].ResetStep? {
      assert steps[1..][i - 1].ResetStep?;
    }
  }

  predicate ResetStepIn(steps: seq<Step>) {
    exists i :: 0 <= i < |steps| && steps[i].ResetStep?
  }

  /** Preparing a request starts no generation, so a read ends in the one its loop left. */
  lemma ReadGeneration(s: Session, feed: Feed, generation: nat, config: Config, env: ReadEnv)
    ensures var g := Read(s, feed, generation, config, env).s.generation;
      g == s.generation || g == ReadAll(s, feed, generation, env.responses, config, env.limit).s.generation
  {
  }

  lemma ReadRaises(s: Session, feed: Feed, generation: nat, config: Config, env: ReadEnv)
    requires SessionOk(s) && Unsurprised(s, feed, generation, env.responses, config, env.limit)
    ensures Read(s, feed, generation, config, env).s.generation >= s.generation
  {
    ReadGeneration(s, feed, generation, config, env);
    ReadAllKeeps(s, feed, generation, env.responses, config, env.limit);
  }

  lemma StepRaises(p: Pair, step: Step, config: Config)
    requires PairOk(p) && Enabled(p, step, config)
    ensures Next(p, step, config).s.generation >= p.s.generation
    ensures step.ResetStep? ==> Next(p, step, config).s.generation == p.s.generation + 1
  {
    if step.WriteStep? {
      WriteKeepsLines(p.s, p.feed, config.required, step.meets);
    } else if step.ReadStep? {
      ReadRaises(p.s, p.feed, step.generation, config, step.received);
    }
  }

  // ------------------------------------------------------------------------------- permits lost to would-block

  /** As many sends raised would-block after taking their permit as the connection has permits. */
  predicate Spent(s: Session) {
    s.isOpen && s.leaked == s.limit
  }

  /** The connection is spent and has sent nothing more, or it was reset. */
  predicate SentNothing(p: Pair, q: Pair) {
    q.s.generation > p.s.generation
    || (q.s.generation == p.s.generation && Spent(q.s) && q.s.wire.committed == p.s.wire.committed)
  }

  lemma SpentStays(p: Pair, step: Step, config: Config)
    requires PairOk(p) && Enabled(p, step, config) && Spent(p.s)
    ensures SentNothing(p, Next(p, step, config))
  {
    assert p.s.permits == 0 && |p.s.inflight| == 0;
    if step.WriteStep? {
      SpentWrites(p.s, p.feed, config.required, step.meets);
    } else if step.ReadStep? {
      SpentReads(p.s, p.feed, step.generation, config, step.received);
    }
  }

  lemma SpentReads(s: Session, feed: Feed, generation: nat, config: Config, env: ReadEnv)
    requires s.inflight == []
    ensures var t := Read(s, feed, generation, config, env).s; t == s.(next := t.next)
  {
    assert ReadAll(s, feed, generation, env.responses, config, env.limit).s == s;
    ReadCases(s, feed, generation, config, env);
  }

  lemma SpentWrites(s: Session, feed: Feed, required: bool, env: WriteEnv)
    requires s.isOpen && s.permits == 0
    ensures var t := Write(s, feed, required, env).s;
      t == Fresh(env.limit, s.generation + 1) || t == s.(next := t.next, wire := t.wire)
    ensures var t := Write(s, feed, required, env).s;
      t.generation == s.generation ==> t.wire.committed == s.wire.committed
  {
    WriteCases(s, feed, required, env);
    SpentRequests(s.(wire := FlushBuffer(s.wire, env.flush)), feed, required, env);
  }

  lemma SpentRequests(s: Session, feed: Feed, required: bool, env: WriteEnv)
    requires s.permits == 0
    ensures var t := WriteRequest(s, feed, required, env).s; t == s.(next := t.next)
  {
  }

  /** Such a connection never sends another command on any run, until it is reset. */
  lemma {:induction false} SpentNeverSends(p: Pair, steps: seq<Step>, config: Config)
    requires PairOk(p) && GoodConfig(config) && Runs(p, steps, config) && Spent(p.s)
    ensures SentNothing(p, After(p, steps, config))
    decreases |steps|
  {
    if steps == [] {
    } else {
      var q := Next(p, steps[0], config);
      StepKeeps(p, steps[0], config);
      SpentStays(p, steps[0], config);
      GenerationsOnlyRise(q, steps[1..], config);
      if q.s.generation == p.s.generation {
        SpentNeverSends(q, steps[1..], config);
      }
    }
  }

  /** What every write below meets: a socket that would block, and nothing new to fetch. */
  function Blocked(limit: nat): Step {
    WriteStep(WriteEnv(Takes(0), WouldBlock, true, Supply(false, [], false), Jobs({}, {}, {}, {}, {}), limit))
  }

  lemma BlockedPrepares(s: Session, feed: Feed, required: bool, env: WriteEnv)
    requires s.login.ready && s.next.Some? && feed.active && !feed.restart && env.mayWork
    ensures PrepareRequest(s, feed, env.mayWork, env.supply, required, env.jobs) == (s, feed, [], true)
  {
  }

  lemma BlockedSpendsOne(p: Pair, config: Config)
    requires p.s.isOpen && p.s.login.ready && p.s.next.Some? && p.s.wire.buffer == "" && p.s.permits > 0
    requires p.feed.active && !p.feed.restart
    ensures var step := Blocked(p.s.limit);
      && Enabled(p, step, config)
      && Next(p, step, config) == p.(s := p.s.(permits := p.s.permits - 1, leaked := p.s.leaked + 1))
  {
    var env := Blocked(p.s.limit).meets;
    assert FlushBuffer(p.s.wire, Takes(0)) == p.s.wire;
    BlockedPrepares(p.s, p.feed, config.required, env);
    assert SendNext(p.s, p.feed, config.required, env)
           == Result(p.s.(permits := p.s.permits - 1, leaked := p.s.leaked + 1), p.feed, [], false);
  }

  ghost predicate CanBeSpent(p: Pair, config: Config) {
    exists steps :: Runs(p, steps, config) && Spent(After(p, steps, config).s)
  }

  lemma CanBeSpentBefore(p: Pair, step: Step, q: Pair, config: Config)
    requires Enabled(p, step, config) && q == Next(p, step, config) && CanBeSpent(q, config)
    ensures CanBeSpent(p, config)
  {
    var steps :| Runs(q, steps, config) && Spent(After(q, steps, config).s);
    RunsBefore(p, step, steps, config);
  }

  /** One write after another, until no permit is left. */
  lemma {:induction false} WritesSpend(p: Pair, config: Config)
    requires SessionOk(p.s) && p.s.isOpen && p.s.login.ready && p.s.inflight == [] && p.s.next.Some? && p.s.wire.buffer == ""
    requires p.feed.active && !p.feed.restart
    ensures CanBeSpent(p, config)
    decreases p.s.permits
  {
    if p.s.permits == 0 {
      assert Runs(p, [], config) && Spent(After(p, [], config).s);
    } else {
      var s := p.s.(permits := p.s.permits - 1, leaked := p.s.leaked + 1);
      BlockedSpendsOne(p, config);
      LeakKeeps(p.s);
      WritesSpend(p.(s := s), config);
      CanBeSpentBefore(p, Blocked(p.s.limit), p.(s := s), config);
    }
  }

  lemma LeakKeeps(s: Session)
    requires SessionOk(s) && s.isOpen && s.permits > 0
    ensures SessionOk(s.(permits := s.permits - 1, leaked := s.leaked + 1))
  {
  }

  lemma RunsBefore(p: Pair, step: Step, steps: seq<Step>, config: Config)
    requires Enabled(p, step, config) && Runs(Next(p, step, config), steps, config)
    ensures Runs(p, [step] + steps, config) && After(p, [step] + steps, config) == After(Next(p, step, config), steps, config)
  {
    assert ([step] + steps)[1..] == steps;
  }

  /** With any limit there is a run from a fresh connection that spends it. */
  lemma EveryLimitCanBeSpent(limit: nat, a: Article, config: Config)
    requires limit > 0 && !config.needsLogin && '\n' !in a.messageId
    ensures CanBeSpent(Pair(Fresh(limit, 0), Feed([], true, true, true, false), 0), config)
  {
    var feed, jobs := Feed([], true, true, true, false), Jobs({}, {}, {}, {}, {});
    var p := Pair(Fresh(limit, 0), feed, 0);
    var p1 := p.(s := InitConnect(p.s));
    assert Next(p, Connect, config) == p1;
    assert Lines("") == [];
    var p2 := p1.(answered := 1);
    assert Next(p1, Answer, config) == p2;
    var env := ReadEnv([Response(200, NoReset, jobs)], true, Supply(true, [a], false), jobs, limit, false);
    Greeted(p2.s, feed, a, env, config);
    var p3 := Next(p2, ReadStep(0, env), config);
    FreshIsOk(limit, 0);
    InitConnectKeeps(p.s);
    ReadKeeps(p2.s, feed, 0, config, env);
    WritesSpend(p3, config);
    CanBeSpentBefore(p2, ReadStep(0, env), p3, config);
    CanBeSpentBefore(p1, Answer, p2, config);
    CanBeSpentBefore(p, Connect, p1, config);
  }

  /** The greeting of a server that wants no login, and the request prepared after it. */
  lemma Greeted(s: Session, feed: Feed, a: Article, env: ReadEnv, config: Config)
    requires s.isOpen && s.inflight == [None] && s.next.None? && !s.login.forceLogin && !config.needsLogin
    requires feed == Feed([], true, true, true, false) && |env.responses| == 1 && env.responses[0].code == 200
    requires env.mayWork && env.supply == Supply(true, [a], false)
    ensures Unsurprised(s, feed, s.generation, env.responses, config, env.limit)
    ensures var r := Read(s, feed, s.generation, config, env);
      r.feed == feed && r.s.isOpen && r.s.login.ready && r.s.inflight == [] && r.s.next.Some? && r.s.wire == s.wire
      && r.s.generation == s.generation
  {
    assert env.responses[1..] == [];
    var ready := Login(true, true, true, true, true, false);
    assert FinishConnect(s.login, None, 200, config, env.responses[0].jobs) == LoginResult(ready, None, [], false);
    var s1 := s.(login := ready, inflight := s.inflight[1..], popped := s.popped + 1, permits := s.permits + 1);
    assert ReadOne(s, feed, s.generation, env.responses[0], config, env.limit) == Result(s1, feed, [], false);
    assert ReadAll(s, feed, s.generation, env.responses, config, env.limit) == Result(s1, feed, [], false);
    assert HandAll([a]) == [Handed(a)] && [a][1..] == [];
    assert GetArticle(feed, false, env.supply, env.jobs) == (feed, Some(a), [Handed(a)]);
    assert PrepareRequest(s1, feed, true, env.supply, config.required, env.jobs).0
           == s1.(next := Some(Request(ArticleCommand(feed, a, env.jobs), Some(a))));
    assert !StoppedEarly(s, feed, s.generation, env.responses, config, env.limit);
  }
}
