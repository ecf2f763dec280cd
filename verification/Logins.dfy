/**
 How a connection logs in: which answers of a server make it ready, which make it fail, and what it sends in between
 (AUTHINFO USER and PASS, section 2.3 of RFC 4643).
 */
module Logins {
  import opened Options
  import opened Connections
  import opened Sessions
  import opened Duplex

  function NewLogin(): Login {
    Login(false, false, false, false, false, false)
  }

  /** The answers that end a login, whatever it has come to. */
  predicate Rejects(code: int) {
    code == 400 || code == 500 || code == 502
  }

  /** An answer that neither ends a login nor asks for one. */
  predicate IsPlain(code: int) {
    !Rejects(code) && code != 480
  }

  /** The commands of a login, and nothing else. */
  predicate Queues(r: LoginResult, command: string) {
    r.next == Some(Request(command, None)) && r.events == [] && !r.failed && !r.login.ready
  }

  predicate Succeeds(r: LoginResult) {
    r.login.ready && !r.failed && r.next == None && r.events == []
  }

  predicate Fails(r: LoginResult) {
    r.failed && !r.login.ready && r.next == None && r.events == []
  }

  /** A login answered one code after the other, each command sent before the next answer. */
  ghost function Answered(login: Login, codes: seq<int>, config: Config, jobs: Jobs): LoginResult
    requires codes != []
    decreases |codes|
  {
    var r := FinishConnect(login, None, codes[0], config, jobs);
    if |codes| == 1 then r else Answered(r.login, codes[1..], config, jobs)
  }

  lemma OneAnswer(login: Login, code: int, config: Config, jobs: Jobs)
    ensures Answered(login, [code], config, jobs) == FinishConnect(login, None, code, config, jobs)
  {
  }

  lemma MoreAnswers(login: Login, code: int, codes: seq<int>, config: Config, jobs: Jobs)
    requires codes != []
    ensures Answered(login, [code] + codes, config, jobs)
            == Answered(FinishConnect(login, None, code, config, jobs).login, codes, config, jobs)
  {
    assert ([code] + codes)[1..] == codes;
  }

  /** Where a login is needed: the greeting is answered with the user name, a 381 with the password, and a 281 to that
      makes the connection ready; any other answer to the password fails, but for a 480, which starts the login again. A
      281 to the user name alone makes it ready at once. */
  lemma LoginByPassword(config: Config, jobs: Jobs, greeting: int, last: int)
    requires config.needsLogin && IsPlain(greeting)
    ensures Queues(Answered(NewLogin(), [greeting], config, jobs), config.userCommand)
    ensures Queues(Answered(NewLogin(), [greeting, 381], config, jobs), config.passCommand)
    ensures Succeeds(Answered(NewLogin(), [greeting, 281], config, jobs))
    ensures var r := Answered(NewLogin(), [greeting, 381, last], config, jobs);
      if last == 281 then Succeeds(r)
      else if last == 480 then Queues(r, config.userCommand)
      else Fails(r)
  {
    OneAnswer(NewLogin(), greeting, config, jobs);
    var user := FinishConnect(NewLogin(), None, greeting, config, jobs).login;
    MoreAnswers(NewLogin(), greeting, [381], config, jobs);
    MoreAnswers(NewLogin(), greeting, [281], config, jobs);
    assert [greeting] + [381] == [greeting, 381] && [greeting] + [281] == [greeting, 281];
    OneAnswer(user, 381, config, jobs);
    OneAnswer(user, 281, config, jobs);
    var pass := FinishConnect(user, None, 381, config, jobs).login;
    MoreAnswers(NewLogin(), greeting, [381, last], config, jobs);
    MoreAnswers(user, 381, [last], config, jobs);
    assert [greeting] + [381, last] == [greeting, 381, last] && [381] + [last] == [381, last];
    OneAnswer(pass, last, config, jobs);
  }

  /** Any other answer to the user name leaves the connection as it is, with nothing to send. */
  lemma NameNotTaken(config: Config, jobs: Jobs, greeting: int, code: int)
    requires config.needsLogin && IsPlain(greeting) && IsPlain(code) && code != 381 && code != 281
    ensures var r := Answered(NewLogin(), [greeting, code], config, jobs);
      !r.login.ready && !r.failed && r.next == None && r.login == Answered(NewLogin(), [greeting], config, jobs).login
  {
    OneAnswer(NewLogin(), greeting, config, jobs);
    var user := FinishConnect(NewLogin(), None, greeting, config, jobs).login;
    MoreAnswers(NewLogin(), greeting, [code], config, jobs);
    assert [greeting] + [code] == [greeting, code];
    OneAnswer(user, code, config, jobs);
  }

  /** An answer about the login that comes to a ready connection: one that needed only the user name takes it for nothing;
      one that sent the password takes anything but another 281 for a failed login, though it stays marked as ready. */
  lemma AnswersOnceReady(config: Config, jobs: Jobs, greeting: int, more: int)
    requires config.needsLogin && IsPlain(greeting) && IsPlain(more)
    ensures var r := Answered(NewLogin(), [greeting, 281, more], config, jobs);
      Succeeds(r) && r.login == Answered(NewLogin(), [greeting, 281], config, jobs).login
    ensures var r := Answered(NewLogin(), [greeting, 381, 281, more], config, jobs);
      if more == 281 then Succeeds(r) else r.failed && r.login.ready && r.next == None && r.events == []
  {
    var user := FinishConnect(NewLogin(), None, greeting, config, jobs).login;
    var ready := FinishConnect(user, None, 281, config, jobs).login;
    MoreAnswers(NewLogin(), greeting, [281], config, jobs);
    MoreAnswers(NewLogin(), greeting, [281, more], config, jobs);
    MoreAnswers(user, 281, [more], config, jobs);
    OneAnswer(user, 281, config, jobs);
    OneAnswer(ready, more, config, jobs);
    assert [greeting] + [281] == [greeting, 281] && [greeting] + [281, more] == [greeting, 281, more] && [281] + [more] == [281, more];
    var pass := FinishConnect(user, None, 381, config, jobs).login;
    var welcome := FinishConnect(pass, None, 281, config, jobs).login;
    MoreAnswers(NewLogin(), greeting, [381, 281, more], config, jobs);
    MoreAnswers(user, 381, [281, more], config, jobs);
    MoreAnswers(pass, 281, [more], config, jobs);
    OneAnswer(welcome, more, config, jobs);
    assert [greeting] + [381, 281, more] == [greeting, 381, 281, more] && [381] + [281, more] == [381, 281, more];
  }

  /** Where no login is needed the first answer makes the connection ready, unless it asks for one: then the login goes as
      where one is needed. */
  lemma LoginOnRequest(config: Config, jobs: Jobs, greeting: int, last: int)
    requires !config.needsLogin && IsPlain(greeting)
    ensures Succeeds(Answered(NewLogin(), [greeting], config, jobs))
    ensures Queues(Answered(NewLogin(), [greeting, 480], config, jobs), config.userCommand)
    ensures Queues(Answered(NewLogin(), [greeting, 480, 381], config, jobs), config.passCommand)
    ensures var r := Answered(NewLogin(), [greeting, 480, 381, last], config, jobs);
      if last == 281 then Succeeds(r)
      else if last == 480 then Queues(r, config.userCommand)
      else Fails(r)
  {
    OneAnswer(NewLogin(), greeting, config, jobs);
    var ready := FinishConnect(NewLogin(), None, greeting, config, jobs).login;
    MoreAnswers(NewLogin(), greeting, [480], config, jobs);
    OneAnswer(ready, 480, config, jobs);
    var user := FinishConnect(ready, None, 480, config, jobs).login;
    MoreAnswers(NewLogin(), greeting, [480, 381], config, jobs);
    MoreAnswers(ready, 480, [381], config, jobs);
    OneAnswer(user, 381, config, jobs);
    var pass := FinishConnect(user, None, 381, config, jobs).login;
    MoreAnswers(NewLogin(), greeting, [480, 381, last], config, jobs);
    MoreAnswers(ready, 480, [381, last], config, jobs);
    MoreAnswers(user, 381, [last], config, jobs);
    OneAnswer(pass, last, config, jobs);
    assert [greeting] + [480] == [greeting, 480] && [greeting] + [480, 381] == [greeting, 480, 381];
    assert [480] + [381] == [480, 381] && [greeting] + [480, 381, last] == [greeting, 480, 381, last];
    assert [480] + [381, last] == [480, 381, last] && [381] + [last] == [381, last];
  }

  /** A rejection fails at any point, and touches nothing that is queued. */
  lemma RejectionFails(login: Login, next: Option<Request>, code: int, config: Config, jobs: Jobs)
    ensures Rejects(code) ==>
      var r := FinishConnect(login, next, code, config, jobs); r.failed && r.next == next && r.events == []
  {
  }

  /** Finishing a connect is answered with False exactly at a rejection, or, where a login is needed or was asked for, at any
      answer but a 281 and a 480 that comes after the password was sent and before it was taken. */
  lemma FalseExactly(s: Session, feed: Feed, response: Response, config: Config, limit: nat)
    ensures var l, code := s.login, response.code;
      FinishConnectNw(s, feed, response, config, limit).1 <==>
        !Rejects(code)
        && (code == 281 || code == 480 || !(config.needsLogin || l.forceLogin)
            || !((l.userOk || (l.userSent && code == 381)) && l.passSent && !l.passOk))
  {
  }

  // ------------------------------------------------------------------------------------------------------ every run

  /** Some reader of this generation was given a 281. */
  predicate Welcomed(steps: seq<Step>, generation: nat) {
    exists i :: 0 <= i < |steps| && Welcomes(steps[i], generation)
  }

  predicate Welcomes(step: Step, generation: nat) {
    step.ReadStep? && step.generation == generation && Has281(step.received.responses)
  }

  predicate Has281(responses: seq<Response>) {
    exists j :: 0 <= j < |responses| && responses[j].code == 281
  }

  lemma NoLoginWithout281(login: Login, next: Option<Request>, code: int, config: Config, jobs: Jobs)
    requires config.needsLogin && !login.ready && code != 281
    ensures !FinishConnect(login, next, code, config, jobs).login.ready
  {
  }

  lemma OneLeavesUnready(s: Session, feed: Feed, generation: nat, response: Response, config: Config, limit: nat)
    requires config.needsLogin && !s.login.ready && response.code != 281
    ensures !ReadOne(s, feed, generation, response, config, limit).s.login.ready
  {
    NoLoginWithout281(s.login, s.next, response.code, config, response.jobs);
  }

  lemma {:induction false} AllLeaveUnready(s: Session, feed: Feed, generation: nat, responses: seq<Response>, config: Config, limit: nat)
    requires config.needsLogin && !s.login.ready && !Has281(responses)
    ensures !ReadAll(s, feed, generation, responses, config, limit).s.login.ready
    decreases |responses|
  {
    if responses != [] && s.generation == generation && s.inflight != [] {
      assert responses[0].code != 281;
      OneLeavesUnready(s, feed, generation, responses[0], config, limit);
      var r := ReadOne(s, feed, generation, responses[0], config, limit);
      forall j | 0 <= j < |responses[1..]| ensures responses[1..][j].code != 281 {
        assert responses[1..][j] == responses[j + 1];
      }
      AllLeaveUnready(r.s, r.feed, generation, responses[1..], config, limit);
    }
  }

  lemma ReadLeavesUnready(p: Pair, step: Step, config: Config)
    requires config.needsLogin && !p.s.login.ready && step.ReadStep? && Enabled(p, step, config) && PairOk(p)
    requires !Welcomes(step, p.s.generation)
    ensures !Next(p, step, config).s.login.ready
  {
    var env := step.received;
    ReadCases(p.s, p.feed, step.generation, config, env);
    if step.generation == p.s.generation {
      AllLeaveUnready(p.s, p.feed, step.generation, env.responses, config, env.limit);
    } else {
      ReadKeeps(p.s, p.feed, step.generation, config, env);
    }
    var r := ReadAll(p.s, p.feed, step.generation, env.responses, config, env.limit);
    PrepareSetsNext(r.s, r.feed, env.mayWork, env.supply, config.required, env.jobs);
  }

  lemma WriteKeepsLogin(s: Session, feed: Feed, required: bool, env: WriteEnv)
    ensures var t := Write(s, feed, required, env).s;
      t.login == s.login || t == Fresh(env.limit, s.generation + 1)
  {
    WriteCases(s, feed, required, env);
    var s1 := s.(wire := FlushBuffer(s.wire, env.flush));
    WriteRequestKeepsLogin(s1, feed, required, env);
  }

  lemma WriteRequestKeepsLogin(s: Session, feed: Feed, required: bool, env: WriteEnv)
    ensures var t := WriteRequest(s, feed, required, env).s;
      t.login == s.login || t == Fresh(env.limit, s.generation + 1)
  {
    PrepareSetsNext(s, feed, env.mayWork, env.supply, required, env.jobs);
    var (s1, feed1, _, work) := PrepareRequest(s, feed, env.mayWork, env.supply, required, env.jobs);
    if work && s1.next.Some? && s1.permits > 0 {
      SendNextCases(s1, feed1, required, env);
    }
  }

  lemma StepLeavesUnready(p: Pair, step: Step, config: Config)
    requires config.needsLogin && !p.s.login.ready && Enabled(p, step, config) && PairOk(p)
    requires !Welcomes(step, p.s.generation)
    ensures !Next(p, step, config).s.login.ready
  {
    if step.ReadStep? {
      ReadLeavesUnready(p, step, config);
    } else if step.WriteStep? {
      WriteKeepsLogin(p.s, p.feed, config.required, step.meets);
    } else if step.Prepare? {
      PrepareSetsNext(p.s, p.feed, step.mayWork, step.supply, config.required, step.jobs);
    }
  }

  /** A new generation is not ready when it starts. */
  lemma FreshIsUnready(p: Pair, step: Step, config: Config)
    requires Enabled(p, step, config) && PairOk(p) && Next(p, step, config).s.generation != p.s.generation
    ensures !Next(p, step, config).s.login.ready
  {
    if step.ReadStep? {
      ReadCases(p.s, p.feed, step.generation, config, step.received);
      ReadAllKeeps(p.s, p.feed, step.generation, step.received.responses, config, step.received.limit);
      var r := ReadAll(p.s, p.feed, step.generation, step.received.responses, config, step.received.limit);
      PrepareSetsNext(r.s, r.feed, step.received.mayWork, step.received.supply, config.required, step.received.jobs);
    } else if step.WriteStep? {
      WriteKeepsLines(p.s, p.feed, config.required, step.meets);
    }
  }

  /** On every run a connection that needs a login is ready only after a 281 to its present generation. */
  lemma {:induction false} ReadyOnlyAfter281(p: Pair, steps: seq<Step>, config: Config)
    requires PairOk(p) && GoodConfig(config) && config.needsLogin && Runs(p, steps, config)
    ensures var q := After(p, steps, config);
      q.s.login.ready ==> Welcomed(steps, q.s.generation) || (p.s.login.ready && p.s.generation == q.s.generation)
    decreases |steps|
  {
    if steps == [] {
    } else {
      var p1, q := Next(p, steps[0], config), After(p, steps, config);
      StepKeeps(p, steps[0], config);
      ReadyOnlyAfter281(p1, steps[1..], config);
      if Welcomed(steps[1..], q.s.generation) {
        WelcomedLater(steps, q.s.generation);
      } else if q.s.login.ready {
        if p1.s.generation != p.s.generation {
          FreshIsUnready(p, steps[0], config);
        } else if !p.s.login.ready && !Welcomes(steps[0], p.s.generation) {
          StepLeavesUnready(p, steps[0], config);
        }
      }
    }
  }

  lemma WelcomedLater(steps: seq<Step>, generation: nat)
    requires steps != [] && Welcomed(steps[1..], generation)
    ensures Welcomed(steps, generation)
  {
    var i :| 0 <= i < |steps[1..]| && Welcomes(steps[1..][i], generation);
    assert steps[1..][i] == steps[i + 1];
  }

  /** From a fresh connection, ready means welcomed. */
  lemma ReadyMeansWelcomed(limit: nat, feed: Feed, steps: seq<Step>, config: Config)
    requires GoodFeed(feed) && GoodConfig(config) && config.needsLogin && Runs(Pair(Fresh(limit, 0), feed, 0), steps, config)
    ensures var q := After(Pair(Fresh(limit, 0), feed, 0), steps, config);
      q.s.login.ready ==> exists i :: 0 <= i < |steps| && Welcomes(steps[i], q.s.generation)
  {
    FreshIsOk(limit, 0);
    ReadyOnlyAfter281(Pair(Fresh(limit, 0), feed, 0), steps, config);
  }
}
