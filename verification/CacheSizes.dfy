/**
 `__cache_size` and the article table, at the grain at which other threads can come between: a save reserves its space
 and then enters its data, a load or purge takes data out and then frees its space, and `flush_articles` resets the size
 and then pops one article after the other, all without a lock around them.
 */
module CacheSizes {
  import opened Options
  import opened Storage
  import opened CacheMap

  datatype Thread = Thread(n: nat)

  /** What was counted before the last flush began: in the table, reserved, and on its way out; and, since it began, the
      bytes counted since that a flush has popped, and those counted before that were freed. */
  datatype Ledger = Ledger(keys: set<Key>, storing: set<Thread>, freeing: set<Thread>, popped: nat, freed: nat)

  /** `storing` is reserved and not yet in the table; `freeing` is out of the table and not yet freed; `flushers` are in
      the loop of `flush_articles`. */
  datatype Sizes = Sizes(
    table: map<Key, Bytes>, size: int, limit: int,
    storing: map<Thread, Bytes>, freeing: map<Thread, Bytes>, flushers: nat, before: Ledger)

  datatype Step =
    | Reserve(t: Thread, data: Bytes)
    | Store(t: Thread, k: Key)
    | Take(t: Thread, k: Key)
    | Free(t: Thread)
    | Begin
    | Pop(k: Key)
    | End                             // the loop finds the table empty
    | SetLimit(limit: int)

  predicate Enabled(st: Sizes, step: Step) {
    match step
    case Reserve(t, _) => t !in st.storing
    case Store(t, k) => t in st.storing && k !in st.table
    case Take(t, k) => t !in st.freeing && k in st.table
    case Free(t) => t in st.freeing
    case Begin => true
    case Pop(k) => st.flushers > 0 && k in st.table
    case End => st.flushers > 0 && st.table == map[]
    case SetLimit(limit) => limit >= 0
  }

  /** The mark of being old goes from a to b. */
  function Passed<A, B>(was: set<A>, a: A, now: set<B>, b: B): set<B> {
    if a in was then now + {b} else now - {b}
  }

  function Next(st: Sizes, step: Step): Sizes
    requires Enabled(st, step)
  {
    var b := st.before;
    match step
    case Reserve(t, data) =>
      if st.limit != 0 && st.size + |data| <= st.limit then
        st.(size := st.size + |data|, storing := st.storing[t := data], before := b.(storing := b.storing - {t}))
      else st
    case Store(t, k) =>
      st.(table := st.table[k := st.storing[t]], storing := st.storing - {t},
          before := b.(keys := Passed(b.storing, t, b.keys, k), storing := b.storing - {t}))
    case Take(t, k) =>
      st.(table := st.table - {k}, freeing := st.freeing[t := st.table[k]],
          before := b.(freeing := Passed(b.keys, k, b.freeing, t), keys := b.keys - {k}))
    case Free(t) =>
      st.(size := st.size - |st.freeing[t]|, freeing := st.freeing - {t},
          before := b.(freeing := b.freeing - {t}, freed := b.freed + if t in b.freeing then |st.freeing[t]| else 0))
    case Begin =>
      st.(size := 0, flushers := st.flushers + 1, before := Ledger(st.table.Keys, st.storing.Keys, st.freeing.Keys, 0, 0))
    case Pop(k) =>
      st.(table := st.table - {k},
          before := b.(keys := b.keys - {k}, popped := b.popped + if k in b.keys then 0 else |st.table[k]|))
    case End => st.(flushers := st.flushers - 1)
    case SetLimit(limit) => st.(limit := limit)
  }

  ghost predicate Run(first: Sizes, steps: seq<Step>, last: Sizes)
    decreases |steps|
  {
    if steps == [] then last == first else Enabled(first, steps[0]) && Run(Next(first, steps[0]), steps[1..], last)
  }

  function Start(limit: int): Sizes {
    Sizes(map[], 0, limit, map[], map[], 0, Ledger({}, {}, {}, 0, 0))
  }

  // ------------------------------------------------------------------------------------- the calls, as such steps

  predicate Shows(st: Sizes, w: World) {
    st.table == w.table && st.size == w.size && st.limit == w.limit
  }

  /** A save that ends in memory is a reservation and an entry; any other touches neither size nor table. */
  lemma SaveIsSteps(w: World, k: Key, data: Bytes, env: SaveEnv, st: Sizes, t: Thread)
    requires Known(w, k) && Sane(w) && k !in w.table && Shows(st, w) && t !in st.storing
    ensures var v := SaveArticle(w, k, data, env);
      if k in v.table then
        && Enabled(st, Reserve(t, data)) && Enabled(Next(st, Reserve(t, data)), Store(t, k))
        && Shows(Next(Next(st, Reserve(t, data)), Store(t, k)), v)
      else Shows(st, v)
  {
    var w1 := WithArticle(w, k, ArticleOf(w, k).(saved := true));
    if (ArticleOf(w, k).lowestPartnum && !env.named) || !FitsInMemory(w1, data) {
      assert FlushToDisk(w1, k, data, env.io).table == w.table;
    }
  }

  /** A load or purge of what is in memory takes it out and frees its space; any other touches neither. */
  lemma LoadIsSteps(w: World, k: Key, st: Sizes, t: Thread)
    requires Known(w, k) && Shows(st, w) && t !in st.freeing
    ensures if k in w.table then
        && Enabled(st, Take(t, k)) && Enabled(Next(st, Take(t, k)), Free(t))
        && Shows(Next(Next(st, Take(t, k)), Free(t)), LoadArticle(w, k))
        && Shows(Next(Next(st, Take(t, k)), Free(t)), PurgeOne(w, k))
      else Shows(st, LoadArticle(w, k)) && Shows(st, PurgeOne(w, k))
  {
  }

  /** A turn of a flush pops. */
  lemma FlushIsSteps(w: World, k: Key, io: DirectIO, st: Sizes)
    requires Known(w, k) && Sane(w) && k in w.table && Shows(st, w) && st.flushers > 0
    ensures Shows(Next(st, Begin), w.(size := 0)) && Shows(Next(st, Pop(k)), FlushOne(w, k, io))
  {
    assert FlushOne(w, k, io).table == w.table - {k};
  }

  /** A new limit counts from the moment it is set. */
  lemma LimitIsStep(w: World, limit: int, st: Sizes)
    requires Shows(st, w) && NewLimit(w, limit).limit >= 0
    ensures Shows(Next(st, SetLimit(NewLimit(w, limit).limit)), NewLimit(w, limit))
  {
  }

  // ------------------------------------------------------------------------------------------------ conservation

  lemma TotalNewWith<K>(m: map<K, Bytes>, was: set<K>, k: K, data: Bytes)
    requires k !in m
    ensures TotalLength(m[k := data] - (was - {k})) == TotalLength(m - was) + |data|
    ensures TotalLength(m[k := data] - (was + {k})) == TotalLength(m - was)
  {
    assert m[k := data] - (was - {k}) == (m - was)[k := data];
    assert m[k := data] - (was + {k}) == m - was;
    TotalWith(m - was, k, data);
  }

  lemma TotalNewWithout<K>(m: map<K, Bytes>, was: set<K>, k: K)
    requires k in m
    ensures TotalLength((m - {k}) - (was - {k})) == TotalLength(m - was) - if k in was then 0 else |m[k]|
  {
    if k in was {
      assert (m - {k}) - (was - {k}) == m - was;
    } else {
      assert (m - {k}) - (was - {k}) == (m - was) - {k};
      TotalWithout(m - was, k);
    }
  }

  /** The size is what was counted since the last flush began, wherever it is or was popped to, less what was counted
      before and freed since. */
  ghost predicate Conserved(st: Sizes) {
    st.size == TotalLength(st.table - st.before.keys) + TotalLength(st.storing - st.before.storing)
               + TotalLength(st.freeing - st.before.freeing) + st.before.popped - st.before.freed
  }

  lemma StoreConserves(st: Sizes, t: Thread, k: Key)
    requires Conserved(st) && Enabled(st, Store(t, k))
    ensures Conserved(Next(st, Store(t, k)))
  {
    TotalNewWith(st.table, st.before.keys, k, st.storing[t]);
    TotalNewWithout(st.storing, st.before.storing, t);
  }

  lemma TakeConserves(st: Sizes, t: Thread, k: Key)
    requires Conserved(st) && Enabled(st, Take(t, k))
    ensures Conserved(Next(st, Take(t, k)))
  {
    TotalNewWithout(st.table, st.before.keys, k);
    TotalNewWith(st.freeing, st.before.freeing, t, st.table[k]);
  }

  lemma StepConserves(st: Sizes, step: Step)
    requires Conserved(st) && Enabled(st, step)
    ensures Conserved(Next(st, step))
  {
    match step
    case Reserve(t, data) => TotalNewWith(st.storing, st.before.storing, t, data);
    case Store(t, k) => StoreConserves(st, t, k);
    case Take(t, k) => TakeConserves(st, t, k);
    case Free(t) => TotalNewWithout(st.freeing, st.before.freeing, t);
    case Begin => NothingNew(st.table); NothingNew(st.storing); NothingNew(st.freeing);
    case Pop(k) => TotalNewWithout(st.table, st.before.keys, k);
    case End =>
    case SetLimit(_) =>
  }

  lemma NothingNew<K>(m: map<K, Bytes>)
    ensures TotalLength(m - m.Keys) == 0
  {
    assert m - m.Keys == map[];
  }

  lemma {:induction false} RunConserves(first: Sizes, steps: seq<Step>, last: Sizes)
    requires Conserved(first) && Run(first, steps, last)
    ensures Conserved(last)
    decreases |steps|
  {
    if steps != [] {
      StepConserves(first, steps[0]);
      RunConserves(Next(first, steps[0]), steps[1..], last);
    }
  }

  /** Nothing is reserved or about to be freed. */
  predicate Quiet(st: Sizes) {
    st.storing == map[] && st.freeing == map[]
  }

  /** What is in the table since before the last flush began. */
  function OldPart(st: Sizes): map<Key, Bytes> {
    st.table - (st.table.Keys - st.before.keys)
  }

  lemma {:induction false} TotalSplits<K>(m: map<K, Bytes>, was: set<K>)
    ensures TotalLength(m) == TotalLength(m - was) + TotalLength(m - (m.Keys - was))
    decreases |m|
  {
    if m == map[] {
      assert m - was == map[] && m - (m.Keys - was) == map[];
    } else {
      var k :| k in m;
      var rest := m - {k};
      TotalSplits(rest, was);
      TotalWithout(m, k);
      if k in was {
        assert m - was == rest - was && (m - (m.Keys - was)) - {k} == rest - (rest.Keys - was);
        TotalWithout(m - (m.Keys - was), k);
      } else {
        assert m - (m.Keys - was) == rest - (rest.Keys - was) && (m - was) - {k} == rest - was;
        TotalWithout(m - was, k);
      }
    }
  }

  /** On every run of saves, loads, purges and flushes, interleaved at every one of their steps: when nothing is under way
      the size exceeds what is in the table by the bytes that were counted and popped since the last flush began, less
      those counted before and freed since, and those that flush has still to pop. Once its loop has ended it is exact if
      and only if the first two are equal. */
  lemma SizeIsExactExactly(limit: int, steps: seq<Step>, last: Sizes)
    requires Run(Start(limit), steps, last) && Quiet(last)
    ensures last.size - TotalLength(last.table) == last.before.popped - last.before.freed - TotalLength(OldPart(last))
    ensures last.table == map[] ==> last.size == last.before.popped - last.before.freed
    ensures last.table == map[] ==> (last.size == 0 <==> last.before.popped == last.before.freed)
  {
    RunConserves(Start(limit), steps, last);
    TotalSplits(last.table, last.before.keys);
    assert last.storing - last.before.storing == map[] && last.freeing - last.before.freeing == map[];
  }

  // --------------------------------------------------------------------------------------------------- the limit

  predicate IsCalm(step: Step) {
    !step.Begin? && !step.SetLimit?
  }

  predicate Calm(steps: seq<Step>) {
    forall i :: 0 <= i < |steps| ==> IsCalm(steps[i])
  }

  /** No flush is under way, and the size is off by `drift`. */
  ghost predicate Off(st: Sizes, drift: int) {
    && st.flushers == 0 && st.limit >= 0
    && st.size == drift + TotalLength(st.table) + TotalLength(st.storing) + TotalLength(st.freeing)
    && (st.size <= drift || (st.limit > 0 && st.size <= st.limit))
  }

  lemma StaysOff(st: Sizes, step: Step, drift: int)
    requires Off(st, drift) && Enabled(st, step) && IsCalm(step)
    ensures Off(Next(st, step), drift) && Next(st, step).limit == st.limit
  {
    match step
    case Reserve(t, data) => TotalWith(st.storing, t, data);
    case Store(t, k) => TotalWith(st.table, k, st.storing[t]); TotalWithout(st.storing, t);
    case Take(t, k) => TotalWithout(st.table, k); TotalWith(st.freeing, t, st.table[k]);
    case Free(t) => TotalWithout(st.freeing, t);
    case _ =>
  }

  lemma {:induction false} RunStaysOff(first: Sizes, steps: seq<Step>, last: Sizes, drift: int)
    requires Off(first, drift) && Run(first, steps, last) && Calm(steps)
    ensures Off(last, drift) && last.limit == first.limit
    decreases |steps|
  {
    if steps != [] {
      assert IsCalm(steps[0]);
      StaysOff(first, steps[0], drift);
      assert forall i :: 0 <= i < |steps[1..]| ==> steps[1..][i] == steps[i + 1];
      RunStaysOff(Next(first, steps[0]), steps[1..], last, drift);
    }
  }

  /** A flush has ended: nothing is in memory or under way. */
  predicate Ended(st: Sizes) {
    Quiet(st) && st.flushers == 0 && st.table == map[] && st.limit >= 0
  }

  /** What is in memory stays within the limit on every run. */
  ghost predicate WithinLimit(st: Sizes) {
    forall steps, last :: Run(st, steps, last) && Calm(steps) ==> TotalLength(last.table) <= last.limit
  }

  /** After a flush, until the next flush or change of the limit, what is in memory stays within the limit on every run if
      and only if the size was not left below zero, or there is no memory. */
  lemma WithinLimitExactly(st: Sizes)
    requires Ended(st)
    ensures WithinLimit(st) <==> st.size >= 0 || st.limit == 0
  {
    assert Off(st, st.size);
    if st.size >= 0 || st.limit == 0 {
      forall steps, last | Run(st, steps, last) && Calm(steps) ensures TotalLength(last.table) <= last.limit {
        RunStaysOff(st, steps, last, st.size);
      }
    } else {
      TooMuchFits(st, Zeros((st.limit - st.size) as nat));
    }
  }

  lemma TooMuchFits(st: Sizes, data: Bytes)
    requires Ended(st) && st.size < 0 && st.limit > 0 && |data| == st.limit - st.size
    ensures !WithinLimit(st)
  {
    var t, k := Thread(0), Key(0, 0);
    var st1 := Next(st, Reserve(t, data));
    var st2 := Next(st1, Store(t, k));
    var steps := [Reserve(t, data), Store(t, k)];
    assert steps[1..] == [Store(t, k)] && steps[1..][1..] == [];
    assert Run(st1, steps[1..], st2) && Run(st, steps, st2) && Calm(steps);
    TotalWith(map[], k, data);
    assert st2.table == map[][k := data];
  }

  /** The other way round, memory is lost: a size left above zero is taken off the limit until the next flush. */
  lemma SizeLeftIsLost(st: Sizes, steps: seq<Step>, last: Sizes)
    requires Ended(st) && Run(st, steps, last) && Calm(steps)
    ensures TotalLength(last.table) == 0 || TotalLength(last.table) + st.size <= last.limit
  {
    RunStaysOff(st, steps, last, st.size);
  }

  // --------------------------------------------------------------------------------------------- runs into either

  ghost predicate Reached(limit: int, st: Sizes) {
    exists steps :: Run(Start(limit), steps, st)
  }

  lemma {:induction false} RunOn(first: Sizes, steps: seq<Step>, st: Sizes, step: Step)
    requires Run(first, steps, st) && Enabled(st, step)
    ensures Run(first, steps + [step], Next(st, step))
    decreases |steps|
  {
    var all := steps + [step];
    if steps == [] {
      assert all[1..] == [];
    } else {
      RunOn(Next(first, steps[0]), steps[1..], st, step);
      assert all[1..] == steps[1..] + [step];
    }
  }

  lemma ReachedNext(limit: int, st: Sizes, step: Step)
    requires Reached(limit, st) && Enabled(st, step)
    ensures Reached(limit, Next(st, step))
  {
    var steps :| Run(Start(limit), steps, st);
    RunOn(Start(limit), steps, st, step);
  }

  /** An article is in memory when a flush begins, and is purged before the flush comes to it: the size is left below zero
      by its length. */
  lemma PurgedDuringFlush(limit: int, data: Bytes)
    requires 0 < |data| <= limit
    ensures exists st :: Reached(limit, st) && Ended(st) && st.size == -|data| && !WithinLimit(st)
  {
    var t, k, st0 := Thread(0), Key(0, 0), Start(limit);
    assert Run(st0, [], st0) && Reached(limit, st0);
    ReachedNext(limit, st0, Reserve(t, data));
    var st1 := Next(st0, Reserve(t, data));
    ReachedNext(limit, st1, Store(t, k));
    var st2 := Next(st1, Store(t, k));
    ReachedNext(limit, st2, Begin);
    var st3 := Next(st2, Begin);
    ReachedNext(limit, st3, Take(t, k));
    var st4 := Next(st3, Take(t, k));
    ReachedNext(limit, st4, Free(t));
    var st5 := Next(st4, Free(t));
    assert st1.storing - {t} == map[] && map[][k := data] - {k} == map[] && map[][t := data] - {t} == map[];
    assert st5.table == map[] && st5.storing == map[] && st5.freeing == map[];
    ReachedNext(limit, st5, End);
    WithinLimitExactly(Next(st5, End));
  }

  /** An article is saved while a flush loops, and popped by it: the size is left above zero by its length. */
  lemma SavedDuringFlush(limit: int, data: Bytes)
    requires 0 < |data| <= limit
    ensures exists st :: Reached(limit, st) && Ended(st) && st.size == |data|
  {
    var t, k, st0 := Thread(0), Key(0, 0), Start(limit);
    assert Run(st0, [], st0) && Reached(limit, st0);
    ReachedNext(limit, st0, Begin);
    var st1 := Next(st0, Begin);
    ReachedNext(limit, st1, Reserve(t, data));
    var st2 := Next(st1, Reserve(t, data));
    ReachedNext(limit, st2, Store(t, k));
    var st3 := Next(st2, Store(t, k));
    ReachedNext(limit, st3, Pop(k));
    var st4 := Next(st3, Pop(k));
    assert st2.storing - {t} == map[] && map[][k := data] - {k} == map[];
    assert st4.table == map[] && st4.storing == map[] && st4.freeing == map[];
    ReachedNext(limit, st4, End);
  }
}
