/**
 The main loop of the downloader, which waits to be notified when there is nothing to download and no restart to do, and
 the calls of other threads that ask for restarts. Some of these notify the loop and some do not; the wait has no time-out.
 */
module MainLoops {
  import opened Options
  import opened Restarts

  /** The loop runs; or it holds the lock and has found nothing to do; or it waits, and has let go of the lock. */
  datatype Phase = Awake | Deciding | Waiting

  datatype Loop = Loop(st: State, phase: Phase)

  datatype Step =
    | Call(call: Restarts.Step)   // another thread
    | Removes(i: nat)             // the loop takes out a restarting server
    | Decides                     // the loop has nothing to download, and no restart to do
    | Waits
    | Notifies                    // wakeup, or another call that changes the queue

  /** `unblock` and `check_timers` hold the lock of the loop's condition and notify it at their end; `trigger_server` and
      `init_server`, as the scheduler calls it, do neither. `update_server` is an `init_server` and then a `wakeup`. */
  predicate Notifying(call: Restarts.Step) {
    call.Unblocked? || call.Check?
  }

  /** What notifies needs the lock, which the loop holds while it decides. */
  predicate Enabled(x: Loop, step: Step) {
    match step
    case Call(call) => !call.Remove? && Restarts.Enabled(x.st, call) && (Notifying(call) ==> !x.phase.Deciding?)
    case Removes(i) => x.phase.Awake? && Restarts.Enabled(x.st, Remove(i))
    case Decides => x.phase.Awake? && MayWait(x.st)
    case Waits => x.phase.Deciding?
    case Notifies => !x.phase.Deciding?
  }

  function Next(x: Loop, step: Step, config: Config): Loop
    requires Enabled(x, step)
  {
    match step
    case Call(call) => Loop(Restarts.Next(x.st, call, config), if Notifying(call) then Awake else x.phase)
    case Removes(i) => x.(st := RemoveServer(x.st, i, config))
    case Decides => x.(phase := Deciding)
    case Waits => x.(phase := Waiting)
    case Notifies => x.(phase := Awake)
  }

  predicate Follows(states: seq<Loop>, steps: seq<(Step, Config)>, i: nat)
    requires i < |steps| && |states| == |steps| + 1
  {
    Enabled(states[i], steps[i].0) && states[i + 1] == Next(states[i], steps[i].0, steps[i].1)
  }

  /** A run from the start, with all its states. */
  predicate Trace(states: seq<Loop>, steps: seq<(Step, Config)>) {
    && |states| == |steps| + 1 && states[0] == Loop(Start(), Awake)
    && forall i :: 0 <= i < |steps| ==> Follows(states, steps, i)
  }

  // --------------------------------------------------------------------------------------------- what a call can do

  lemma InitGrows(st: State, oldId: Option<Id>, newId: Option<Id>, config: Config)
    ensures var st1 := InitServer(st, oldId, newId, config);
      && st1.restarts >= st.restarts && Pending(st1.servers) >= Pending(st.servers)
      && (st1.restarts > st.restarts ==> Pending(st1.servers) > 0)
  {
    var k, st1 := if oldId.Some? then Find(st.servers, oldId.value) else |st.servers|, InitServer(st, oldId, newId, config);
    if k < |st.servers| {
      PendingAt(st.servers, k);
      PendingAt(st1.servers, k);
      assert st1.servers[..k] == st.servers[..k] && st1.servers[k + 1..] == st.servers[k + 1..];
    } else if newId.Some? && newId.value in config {
      PendingInserted(st.servers, NewEntry(newId.value, config[newId.value]));
    }
  }

  lemma PendingInserted(servers: seq<Entry>, e: Entry)
    ensures Pending(Insert(servers, e)) == Pending(servers) + (if e.restart then 1 else 0)
  {
    var spot := Spot(servers, e.rank);
    assert servers == servers[..spot] + servers[spot..];
    PendingConcat(servers[..spot], servers[spot..]);
    PendingConcat(servers[..spot] + [e], servers[spot..]);
    PendingConcat(servers[..spot], [e]);
    PendingOne(e);
  }

  /** A call that does not notify takes back no restart, and what it asks for is pending. */
  lemma QuietCallGrows(st: State, call: Restarts.Step, config: Config)
    requires Restarts.Enabled(st, call) && !call.Remove? && !Notifying(call)
    ensures var st1 := Restarts.Next(st, call, config);
      && st1.restarts >= st.restarts && Pending(st1.servers) >= Pending(st.servers)
      && (st1.restarts > st.restarts ==> Pending(st1.servers) > 0)
  {
    match call
    case Init(oldId, newId) => InitGrows(st, oldId, newId, config);
    case Trigger(id, _) => InitGrows(ClearTimers(st, id), Some(id), Some(id), config);
    case Plan(_, _) =>
    case Deactivate(i) =>
      var servers1 := st.servers[i := st.servers[i].(active := false)];
      PendingAt(st.servers, i);
      PendingAt(servers1, i);
      assert servers1[..i] == st.servers[..i] && servers1[i + 1..] == st.servers[i + 1..];
  }

  lemma {:induction false} KickRaises(st: State, ids: seq<Id>, now: int, config: Config)
    ensures KickExpired(st, ids, now, config).0.restarts >= st.restarts
    decreases |ids|
  {
    if ids != [] {
      KickRaises(KickOne(st, ids[0], now, config), ids[1..], now, config);
    }
  }

  lemma {:induction false} ForceRaises(st: State, i: nat, kicked: set<Id>, config: Config)
    ensures ForceIdle(st, i, kicked, config).restarts >= st.restarts
    decreases |st.servers| - i
  {
    if i < |st.servers| {
      ForceRaises(ForceOne(st, i, kicked, config), i + 1, kicked, config);
    }
  }

  /** No call lowers the counter. */
  lemma CallRaises(st: State, call: Restarts.Step, config: Config)
    requires Restarts.Enabled(st, call) && !call.Remove?
    ensures Restarts.Next(st, call, config).restarts >= st.restarts
  {
    if call.Check? {
      KickRaises(st, call.ids, call.now, config);
      var (st1, kicked) := KickExpired(st, call.ids, call.now, config);
      ForceRaises(st1, 0, kicked, config);
    }
  }

  // --------------------------------------------------------------------------------------------------- every run

  lemma {:induction false} TraceCounts(states: seq<Loop>, steps: seq<(Step, Config)>, n: nat)
    requires Trace(states, steps) && n <= |steps|
    ensures CounterExact(states[n].st)
  {
    if n > 0 {
      TraceCounts(states, steps, n - 1);
      assert Follows(states, steps, n - 1);
      var (step, config) := steps[n - 1];
      match step
      case Call(call) => NextCounts(states[n - 1].st, call, config);
      case Removes(i) => NextCounts(states[n - 1].st, Remove(i), config);
      case _ =>
    }
  }

  /** A restart was asked for at step i, and up to the n-th state nothing has let the loop run since. */
  predicate Unheard(states: seq<Loop>, i: nat, n: nat)
    requires i < n < |states|
  {
    states[i + 1].st.restarts > states[i].st.restarts && forall j :: i < j <= n ==> !states[j].phase.Awake?
  }

  predicate AnyUnheard(states: seq<Loop>, n: nat)
    requires n < |states|
  {
    exists i :: 0 <= i < n && Unheard(states, i, n)
  }

  /** While the loop does not run, a restart is pending exactly when one was not heard. */
  lemma {:induction false} NotAwake(states: seq<Loop>, steps: seq<(Step, Config)>, n: nat)
    requires Trace(states, steps) && n <= |steps| && !states[n].phase.Awake?
    ensures states[n].st.restarts > 0 <==> AnyUnheard(states, n)
    ensures Pending(states[n].st.servers) > 0 <==> AnyUnheard(states, n)
  {
    TraceCounts(states, steps, n);
    if n > 0 {
      assert Follows(states, steps, n - 1);
      TraceCounts(states, steps, n - 1);
      if states[n - 1].phase.Awake? {
        JustDecided(states, steps, n);
      } else {
        NotAwake(states, steps, n - 1);
        StillNotAwake(states, steps, n);
      }
    }
  }

  lemma NoneUnheard(states: seq<Loop>, n: nat)
    requires 0 < n < |states| && states[n - 1].phase.Awake? && states[n].st == states[n - 1].st
    ensures !AnyUnheard(states, n)
  {
    forall i | 0 <= i < n ensures !Unheard(states, i, n) {
      if i < n - 1 {
        assert i < n - 1 <= n && states[n - 1].phase.Awake?;
      }
    }
  }

  lemma JustDecided(states: seq<Loop>, steps: seq<(Step, Config)>, n: nat)
    requires Trace(states, steps) && 0 < n <= |steps| && states[n - 1].phase.Awake? && !states[n].phase.Awake?
    requires CounterExact(states[n].st)
    ensures states[n].st.restarts == 0 && Pending(states[n].st.servers) == 0 && !AnyUnheard(states, n)
  {
    var (step, config) := steps[n - 1];
    assert Follows(states, steps, n - 1);
    OnlyDeciding(states[n - 1], step, config);
    NoneUnheard(states, n);
  }

  lemma OnlyDeciding(x: Loop, step: Step, config: Config)
    requires Enabled(x, step) && x.phase.Awake? && !Next(x, step, config).phase.Awake?
    ensures x.st.restarts == 0 && Next(x, step, config).st == x.st
  {
    match step
    case Call(_) =>
    case Removes(_) =>
    case _ =>
  }

  lemma StillNotAwake(states: seq<Loop>, steps: seq<(Step, Config)>, n: nat)
    requires Trace(states, steps) && 0 < n <= |steps| && !states[n - 1].phase.Awake? && !states[n].phase.Awake?
    requires CounterExact(states[n].st)
    requires Pending(states[n - 1].st.servers) > 0 <==> AnyUnheard(states, n - 1)
    requires states[n - 1].st.restarts > 0 <==> AnyUnheard(states, n - 1)
    ensures states[n].st.restarts > 0 <==> AnyUnheard(states, n)
    ensures Pending(states[n].st.servers) > 0 <==> AnyUnheard(states, n)
  {
    var m, step := n - 1, steps[n - 1].0;
    assert Follows(states, steps, m);
    if step.Call? {
      QuietCallGrows(states[m].st, step.call, steps[m].1);
    }
    if i :| 0 <= i < m && Unheard(states, i, m) {
      assert Unheard(states, i, n);
    }
    if i :| 0 <= i < n && Unheard(states, i, n) {
      if i < m {
        assert Unheard(states, i, m);
      }
    }
    if states[n].st.restarts > states[m].st.restarts {
      assert Unheard(states, m, n);
    }
  }

  /** On every run, at every moment: the loop waits while a restart is pending exactly when a restart was asked for since
      it last ran, and nothing has notified it since. */
  lemma WaitsWhilePendingExactly(states: seq<Loop>, steps: seq<(Step, Config)>, n: nat)
    requires Trace(states, steps) && n <= |steps| && states[n].phase.Waiting?
    ensures Pending(states[n].st.servers) > 0 <==> exists i :: 0 <= i < n && Unheard(states, i, n)
  {
    NotAwake(states, steps, n);
  }

  /** It never decides to wait while one is pending. */
  lemma DecidesWithNonePending(states: seq<Loop>, steps: seq<(Step, Config)>, n: nat)
    requires Trace(states, steps) && n < |steps| && steps[n].0.Decides?
    ensures Pending(states[n].st.servers) == 0
  {
    assert Follows(states, steps, n);
    TraceCounts(states, steps, n);
  }

  /** Once it runs while a restart is pending it waits no more before it has taken a server out. */
  lemma {:induction false} RunsUntilRemoval(states: seq<Loop>, steps: seq<(Step, Config)>, m: nat, n: nat)
    requires Trace(states, steps) && m <= n <= |steps| && states[m].phase.Awake? && Pending(states[m].st.servers) > 0
    requires forall i :: m <= i < n ==> !steps[i].0.Removes?
    ensures states[n].phase.Awake? && states[n].st.restarts > 0
    decreases n
  {
    TraceCounts(states, steps, m);
    if m < n {
      RunsUntilRemoval(states, steps, m, n - 1);
      assert Follows(states, steps, n - 1);
      var (step, config) := steps[n - 1];
      if step.Call? {
        CallRaises(states[n - 1].st, step.call, config);
      }
    }
  }

  // ------------------------------------------------------------------------------------------------ a run into it

  ghost predicate Reached(x: Loop) {
    exists states, steps :: Trace(states, steps) && states[|steps|] == x
  }

  lemma ReachedNext(x: Loop, step: Step, config: Config)
    requires Reached(x) && Enabled(x, step)
    ensures Reached(Next(x, step, config))
  {
    var states, steps :| Trace(states, steps) && states[|steps|] == x;
    var states1, steps1 := states + [Next(x, step, config)], steps + [(step, config)];
    forall i | 0 <= i < |steps1| ensures Follows(states1, steps1, i) {
      if i < |steps| {
        assert Follows(states, steps, i);
      }
    }
    assert Trace(states1, steps1) && states1[|steps1|] == Next(x, step, config);
  }

  /** A server is set up, deactivated, and its timer planned. */
  lemma Planned(config: Config, stamp: int)
    requires config == map[1 := 0]
    ensures Reached(Loop(State([Entry(1, 0, false, false, None)], map[1 := [stamp]], 0, 0), Awake))
  {
    var e, off := NewEntry(1, 0), Entry(1, 0, false, false, None);
    var x0, x1, x2 := Loop(Start(), Awake), Loop(State([e], map[], 0, 0), Awake), Loop(State([off], map[], 0, 0), Awake);
    assert Trace([x0], []) && [x0][0] == x0;
    ReachedNext(x0, Call(Init(None, Some(1))), config);
    assert InitServer(Start(), None, Some(1), config).servers == [e];
    ReachedNext(x1, Call(Restarts.Deactivate(0)), config);
    assert [e][0 := off] == [off];
    ReachedNext(x2, Call(Plan(1, stamp)), config);
    assert [] + [stamp] == [stamp] && PlanServer(x2.st, 1, stamp).timers == map[1 := [stamp]];
  }

  /** The timer passes while the loop, with nothing to download, waits: the restart is pending, the loop goes on waiting,
      and the next notification lets it run. */
  lemma TimerIsMissed(stamp: int)
    ensures exists x: Loop :: Reached(x) && x.phase.Waiting? && Pending(x.st.servers) > 0 && Reached(x.(phase := Awake))
  {
    var config: Config := map[1 := 0];
    Planned(config, stamp);
    var off, on := Entry(1, 0, false, false, None), Entry(1, 0, false, true, Some(1));
    var st, last := State([off], map[1 := [stamp]], 0, 0), State([on], map[], 1, 0);
    ReachedNext(Loop(st, Awake), Decides, config);
    ReachedNext(Loop(st, Deciding), Waits, config);
    Fires(config, stamp, st, last);
    ReachedNext(Loop(st, Waiting), Call(Trigger(1, stamp)), config);
    ReachedNext(Loop(last, Waiting), Notifies, config);
    PendingOne(on);
  }

  lemma Fires(config: Config, stamp: int, st: State, last: State)
    requires st == State([Entry(1, 0, false, false, None)], map[1 := [stamp]], 0, 0)
    requires last == State([Entry(1, 0, false, true, Some(1))], map[], 1, 0)
    ensures TriggerServer(st, 1, stamp, config) == last
  {
    assert stamp in st.timers[1] && ClearTimers(st, 1).timers == map[];
    assert st.servers[0 := last.servers[0]] == last.servers;
  }
}
