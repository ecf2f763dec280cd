/**
 The download pipeline as a state machine: decoder, cache and assembler threads interleaved at every call and at
 every iteration of the assembler's loop. The theorems are about every run.
 */
module Interleaving {
  import opened Options
  import opened Storage
  import opened Assembly

  /** The shared state and the assembler's current pass (there is one assembler thread). */
  datatype State = State(w: World, p: Pass)

  datatype Step =
    | Learn(k: Key, header: Header)                  // the decoder fills in the article's header fields
    | Save(k: Key, data: Bytes, env: SaveEnv)        // the decoder hands its data to the cache
    | MarkDecoded(k: Key)                            // and then sets `decoded`
    | Flush(k: Key, io: DirectIO)                    // one turn of `flush_articles`
    | ChangeLimit(limit: int)
    | ChangeDirectWrite(on: bool)
    | PrepareFilepath(file: nat)
    | StartPass(task: Task, directWrite: bool)
    | PassStep(seen: Seen)
    | Restart                                        // the program was stopped and started again

  function WithHeader(a: Article, h: Header): Article {
    a.(dataBegin := h.dataBegin, dataSize := h.dataSize, fileSize := h.fileSize, decodedSize := Some(h.decodedSize))
  }

  function UpdateFile(w: World, n: nat, f: Nzf): World
    requires n < |w.files|
  {
    w.(files := w.files[n := f])
  }

  /** What a step needs to be possible at all, and the assumptions this pipeline is promised under: every part
      decodes to what the poster cut there, is saved afresh and not for a finished job, and no pass leaves through
      one of the two `break`s that drop data. */
  predicate Enabled(s: State, step: Step, parts: seq<Parts>) {
    Sane(s.w) && |s.w.files| == |parts| &&
    match step
    case Learn(k, h) =>
      && Known(s.w, k) && k.index < |parts[k.file]|
      && Tiled(WithHeader(ArticleOf(s.w, k), h), parts[k.file], k.index)
    case Save(k, data, env) =>
      && Known(s.w, k) && k.index < |parts[k.file]| && data == parts[k.file][k.index]
      && Afresh(s.w, k) && ArticleOf(s.w, k).decodedSize.Some? && !env.finished
    case MarkDecoded(k) =>
      Known(s.w, k) && (k in s.w.table || ArticleOf(s.w, k).adminFile.Some? || ArticleOf(s.w, k).onDisk)
    case Flush(k, _) => k in s.w.table && Known(s.w, k)
    case ChangeLimit(_) => true
    case ChangeDirectWrite(_) => true
    case PrepareFilepath(n) => n < |s.w.files|
    case StartPass(task, _) =>
      !s.p.running && task.file < |s.w.files| && (task.fileDone ==> AllDecoded(s.w.files[task.file]))
    case PassStep(seen) => s.p.running && PassFits(s.w, s.p) && Lossless(s.w, s.p, seen)
    case Restart => !s.p.running && s.w.table == map[]
  }

  function Next(s: State, step: Step, parts: seq<Parts>): State
    requires Enabled(s, step, parts)
  {
    match step
    case Learn(k, h) =>
      var f := s.w.files[k.file];
      State(UpdateFile(s.w, k.file,
              f.(table := f.table[k.index := WithHeader(f.table[k.index], h)], yenc := h.yenc)), s.p)
    case Save(k, data, env) => State(SaveArticle(s.w, k, data, env), s.p)
    case MarkDecoded(k) => State(WithArticle(s.w, k, ArticleOf(s.w, k).(decoded := true)), s.p)
    case Flush(k, io) => State(FlushOne(s.w, k, io), s.p)
    case ChangeLimit(limit) => State(NewLimit(s.w, limit), s.p)
    case ChangeDirectWrite(on) => State(s.w.(directWrite := on), s.p)
    case PrepareFilepath(n) => State(UpdateFile(s.w, n, s.w.files[n].(filepath := true)), s.p)
    case StartPass(task, directWrite) => State(s.w, BeginPass(s.w, task, directWrite))
    case PassStep(seen) => var (v, q) := Iterate(s.w, s.p, seen); State(v, q)
    case Restart =>
      State(s.w.(files := seq(|s.w.files|, n requires 0 <= n < |s.w.files| => s.w.files[n].(next := 0))),
            s.p.(idx := 0, isOpen := false, skipped := false))
  }

  /** Nothing downloaded yet. */
  predicate Fresh(s: State, parts: seq<Parts>) {
    && !s.p.running && s.p.idx == 0 && !s.p.isOpen && !s.p.skipped && !s.p.task.fileDone && s.p.task.file < |parts|
    && s.w.table == map[] && |s.w.files| == |parts|
    && forall n :: 0 <= n < |parts| ==> FreshFile(s.w.files[n], parts[n])
  }

  predicate FreshFile(f: Nzf, parts: Parts) {
    && |f.table| == |parts| && f.next == 0 && f.disk == []
    && (forall i :: 0 <= i < |parts| ==> parts[i] != [])
    && forall i :: 0 <= i < |parts| ==>
        f.table[i].decodedSize.None? && f.table[i].dataSize == 0 && !f.table[i].decoded && !f.table[i].onDisk
        && f.table[i].adminFile.None?
  }

  predicate Ok(s: State, parts: seq<Parts>) {
    WorldOk(s.w, parts, None) && PassOk(s.w, s.p, parts)
  }

  /** `steps` is a run from `s`. */
  predicate Runs(s: State, steps: seq<Step>, parts: seq<Parts>)
    decreases |steps|
  {
    steps == [] || (Enabled(s, steps[0], parts) && Runs(Next(s, steps[0], parts), steps[1..], parts))
  }

  function After(s: State, steps: seq<Step>, parts: seq<Parts>): State
    requires Runs(s, steps, parts)
    decreases |steps|
  {
    if steps == [] then s else After(Next(s, steps[0], parts), steps[1..], parts)
  }

  // --------------------------------------------------------------------------------------------- every step keeps

  lemma FreshOk(s: State, parts: seq<Parts>)
    requires Fresh(s, parts)
    ensures Ok(s, parts)
  {
    forall n | 0 <= n < |parts| ensures FileOk(s.w.files[n], n, s.w.table, parts[n], None) {
      assert FreshFile(s.w.files[n], parts[n]);
      forall i | 0 <= i < |parts[n]|
        ensures ArticleOk(s.w.files[n].table[i], InMemory(s.w.table, n, i), s.w.files[n].disk, parts[n], i, false)
      {
        assert parts[n][i] != [];
      }
    }
    assert FreshFile(s.w.files[s.p.task.file], parts[s.p.task.file]);
  }

  /** A change of one article that its file tolerates. */
  lemma ArticleChangeKeeps(w: World, v: World, parts: seq<Parts>, k: Key, b: Article, yenc: bool)
    requires WorldOk(w, parts, None) && Known(w, k)
    requires v == UpdateFile(w, k.file,
      w.files[k.file].(table := w.files[k.file].table[k.index := b], yenc := yenc))
    requires b.onDisk == ArticleOf(w, k).onDisk
    requires k.index < |parts[k.file]|
    requires ArticleOk(b, InMemory(w.table, k.file, k.index), w.files[k.file].disk, parts[k.file], k.index, false)
    ensures WorldOk(v, parts, None)
  {
    var n := k.file;
    assert FileOk(w.files[n], n, w.table, parts[n], None);
    forall i | 0 <= i < |parts[n]|
      ensures ArticleOk(v.files[n].table[i], InMemory(v.table, n, i), v.files[n].disk, parts[n], i, false)
    {
      assert ArticleOk(w.files[n].table[i], InMemory(w.table, n, i), w.files[n].disk, parts[n], i, false);
    }
    OneFileOk(w, v, parts, None, None, n);
  }

  /** What a pass relies on survives any step of the other threads. */
  lemma PassUndisturbed(w: World, v: World, p: Pass, parts: seq<Parts>)
    requires PassOk(w, p, parts) && Grows(w, v)
    ensures PassOk(v, p, parts)
  {
    assert FileGrows(w.files[p.task.file], v.files[p.task.file]);
    StaysDecoded(w, v, p.task.file);
  }

  lemma DecoderKeeps(s: State, step: Step, parts: seq<Parts>)
    requires Ok(s, parts) && Enabled(s, step, parts) && (step.Learn? || step.MarkDecoded?)
    ensures Ok(Next(s, step, parts), parts)
  {
    var k := step.k;
    var t := Next(s, step, parts);
    assert FileOk(s.w.files[k.file], k.file, s.w.table, parts[k.file], None);
    assert ArticleOk(ArticleOf(s.w, k), InMemory(s.w.table, k.file, k.index), s.w.files[k.file].disk,
                     parts[k.file], k.index, false);
    ArticleChangeKeeps(s.w, t.w, parts, k, ArticleOf(t.w, k), t.w.files[k.file].yenc);
  }

  lemma RestartKeeps(s: State, parts: seq<Parts>)
    requires Ok(s, parts) && Enabled(s, Restart, parts)
    ensures Ok(Next(s, Restart, parts), parts)
  {
    var t := Next(s, Restart, parts);
    forall n | 0 <= n < |parts| ensures FileOk(t.w.files[n], n, t.w.table, parts[n], None) {
      assert FileOk(s.w.files[n], n, s.w.table, parts[n], None);
      forall i | 0 <= i < |parts[n]|
        ensures ArticleOk(t.w.files[n].table[i], InMemory(t.w.table, n, i), t.w.files[n].disk, parts[n], i, false)
      {
        assert ArticleOk(s.w.files[n].table[i], InMemory(s.w.table, n, i), s.w.files[n].disk, parts[n], i, false);
      }
    }
  }

  lemma PrepareKeeps(s: State, n: nat, parts: seq<Parts>)
    requires Ok(s, parts) && Enabled(s, PrepareFilepath(n), parts)
    ensures Ok(Next(s, PrepareFilepath(n), parts), parts)
  {
    var v := Next(s, PrepareFilepath(n), parts).w;
    assert FileOk(s.w.files[n], n, s.w.table, parts[n], None);
    forall i | 0 <= i < |parts[n]|
      ensures ArticleOk(v.files[n].table[i], InMemory(v.table, n, i), v.files[n].disk, parts[n], i, false)
    {
      assert ArticleOk(s.w.files[n].table[i], InMemory(s.w.table, n, i), s.w.files[n].disk, parts[n], i, false);
    }
    OneFileOk(s.w, v, parts, None, None, n);
  }

  lemma ConfigKeeps(s: State, step: Step, parts: seq<Parts>)
    requires Ok(s, parts) && Enabled(s, step, parts) && (step.ChangeLimit? || step.ChangeDirectWrite? || step.StartPass?)
    ensures Ok(Next(s, step, parts), parts)
  {
    var t := Next(s, step, parts);
    assert t.w.files == s.w.files && t.w.table == s.w.table;
    forall n | 0 <= n < |parts| ensures FileOk(t.w.files[n], n, t.w.table, parts[n], None) {
      assert FileOk(s.w.files[n], n, s.w.table, parts[n], None);
    }
  }

  /** Every step of every thread keeps every file in order. */
  lemma StepKeeps(s: State, step: Step, parts: seq<Parts>)
    requires Ok(s, parts) && Enabled(s, step, parts)
    ensures Ok(Next(s, step, parts), parts)
  {
    match step
    case Learn(_, _) => DecoderKeeps(s, step, parts);
    case MarkDecoded(_) => DecoderKeeps(s, step, parts);
    case Save(k, data, env) =>
      SaveKeeps(s.w, parts, k, env);
      SaveGrows(s.w, k, data, env);
      PassUndisturbed(s.w, SaveArticle(s.w, k, data, env), s.p, parts);
    case Flush(k, io) =>
      FlushOneKeeps(s.w, parts, k, io);
      FlushGrows(s.w.(table := s.w.table - {k}), k, s.w.table[k], io);
      PassUndisturbed(s.w, FlushOne(s.w, k, io), s.p, parts);
    case ChangeLimit(_) => ConfigKeeps(s, step, parts);
    case ChangeDirectWrite(_) => ConfigKeeps(s, step, parts);
    case StartPass(_, _) => ConfigKeeps(s, step, parts);
    case PrepareFilepath(n) => PrepareKeeps(s, n, parts);
    case PassStep(seen) =>
      if Loads(s.w, s.p, seen) {
        LoadingKeeps(s.w, parts, s.p, seen);
      } else {
        QuietKeepsWorld(s.w, parts, s.p, seen);
        QuietKeepsPass(s.w, parts, s.p, seen);
      }
    case Restart => RestartKeeps(s, parts);
  }

  lemma {:induction false} RunKeeps(s: State, steps: seq<Step>, parts: seq<Parts>)
    requires Ok(s, parts) && Runs(s, steps, parts)
    ensures Ok(After(s, steps, parts), parts)
    decreases |steps|
  {
    if steps != [] {
      StepKeeps(s, steps[0], parts);
      RunKeeps(Next(s, steps[0], parts), steps[1..], parts);
    }
  }

  // ------------------------------------------------------------------------------------------------ main theorems

  /** A file_done pass that got to the end of the table. */
  predicate Finished(s: State) {
    && s.p.task.fileDone && s.p.task.file < |s.w.files|
    && s.p.idx == |s.w.files[s.p.task.file].table|
  }

  /** Article i of file n is on disk and the cache holds nothing of it. */
  predicate Settled(w: World, n: nat, i: nat) {
    && Known(w, Key(n, i)) && ArticleOf(w, Key(n, i)).onDisk
    && Key(n, i) !in w.table && ArticleOf(w, Key(n, i)).adminFile.None?
  }

  predicate Whole(w: World, n: nat, parts: Parts) {
    && n < |w.files| && w.files[n].disk == Concat(parts, |parts|)
    && forall i :: 0 <= i < |parts| ==> Settled(w, n, i)
  }

  lemma FinishedIsWhole(s: State, parts: seq<Parts>)
    requires Ok(s, parts) && Finished(s)
    ensures Whole(s.w, s.p.task.file, parts[s.p.task.file])
  {
    var n := s.p.task.file;
    var f := s.w.files[n];
    assert FileOk(f, n, s.w.table, parts[n], None);
    forall i | 0 <= i < |parts[n]| ensures Placed(parts[n], i, f.disk) && Settled(s.w, n, i) {
      assert ArticleOk(f.table[i], InMemory(s.w.table, n, i), f.disk, parts[n], i, false);
    }
    PartsInPlace(parts[n], |parts[n]|, f.disk);
  }

  /** On every run of the pipeline, whenever a file_done pass has gone through a file's table, the target file is
      the concatenation of its parts in order, and nothing of it is left in the cache. */
  lemma EveryRunAssembles(s: State, steps: seq<Step>, parts: seq<Parts>)
    requires Fresh(s, parts) && Runs(s, steps, parts) && Finished(After(s, steps, parts))
    ensures var t := After(s, steps, parts);
      t.p.task.file < |parts| && Whole(t.w, t.p.task.file, parts[t.p.task.file])
  {
    FreshOk(s, parts);
    RunKeeps(s, steps, parts);
    FinishedIsWhole(After(s, steps, parts), parts);
  }

  /** On every run, at every moment, every index below `assembler_next_index` is on disk with its bytes in place. */
  lemma BelowNextIndexIsOnDisk(s: State, steps: seq<Step>, parts: seq<Parts>, n: nat, i: nat)
    requires Fresh(s, parts) && Runs(s, steps, parts) && n < |parts|
    ensures var w := After(s, steps, parts).w;
      && |w.files| == |parts| && w.files[n].next <= |parts[n]|
      && (i < w.files[n].next ==> Settled(w, n, i) && Placed(parts[n], i, w.files[n].disk))
  {
    FreshOk(s, parts);
    RunKeeps(s, steps, parts);
    var w := After(s, steps, parts).w;
    assert FileOk(w.files[n], n, w.table, parts[n], None);
    if i < w.files[n].next {
      assert ArticleOk(w.files[n].table[i], InMemory(w.table, n, i), w.files[n].disk, parts[n], i, false);
    }
  }

  /** Nothing but a restart of the program moves `assembler_next_index` back or takes an article off the disk. */
  predicate NeverBack(w: World, v: World) {
    |v.files| == |w.files| && forall n :: 0 <= n < |w.files| ==> FileNeverBack(w.files[n], v.files[n])
  }

  predicate FileNeverBack(f: Nzf, g: Nzf) {
    && |g.table| == |f.table| && f.next <= g.next
    && forall i :: 0 <= i < |f.table| ==> f.table[i].onDisk ==> g.table[i].onDisk
  }

  lemma GrowsNeverBack(w: World, v: World)
    requires Grows(w, v)
    ensures NeverBack(w, v)
  {
    forall n | 0 <= n < |w.files| ensures FileNeverBack(w.files[n], v.files[n]) {
      assert FileGrows(w.files[n], v.files[n]);
      forall i | 0 <= i < |w.files[n].table| && w.files[n].table[i].onDisk ensures v.files[n].table[i].onDisk {
        assert ArticleGrows(w.files[n].table[i], v.files[n].table[i]);
      }
    }
  }

  lemma StepNeverBack(s: State, step: Step, parts: seq<Parts>)
    requires Enabled(s, step, parts) && step != Restart
    ensures NeverBack(s.w, Next(s, step, parts).w)
  {
    match step
    case Save(k, data, env) =>
      SaveGrows(s.w, k, data, env);
      GrowsNeverBack(s.w, Next(s, step, parts).w);
    case Flush(k, io) =>
      FlushGrows(s.w.(table := s.w.table - {k}), k, s.w.table[k], io);
      GrowsNeverBack(s.w.(table := s.w.table - {k}), Next(s, step, parts).w);
    case PassStep(seen) =>
      IterateGrows(s.w, s.p, seen);
      GrowsNeverBack(s.w, Next(s, step, parts).w);
    case Learn(_, _) =>
    case MarkDecoded(_) =>
    case ChangeLimit(_) =>
    case ChangeDirectWrite(_) =>
    case PrepareFilepath(_) =>
    case StartPass(_, _) =>
  }

  lemma {:induction false} RunNeverBack(s: State, steps: seq<Step>, parts: seq<Parts>)
    requires Runs(s, steps, parts) && Restart !in steps
    ensures NeverBack(s.w, After(s, steps, parts).w)
    decreases |steps|
  {
    if steps != [] {
      var t := Next(s, steps[0], parts);
      var u := After(s, steps, parts);
      StepNeverBack(s, steps[0], parts);
      RunNeverBack(t, steps[1..], parts);
      forall n | 0 <= n < |s.w.files| ensures FileNeverBack(s.w.files[n], u.w.files[n]) {
        assert FileNeverBack(s.w.files[n], t.w.files[n]) && FileNeverBack(t.w.files[n], u.w.files[n]);
      }
    }
  }

  // ----------------------------------------------------------------------------------------- uninterrupted passes

  /** The final pass, run without interruption from any state in order, completes the file. */
  lemma {:induction false} FinalPassCompletes(w: World, p: Pass, seen: seq<Seen>, parts: seq<Parts>)
    requires Ok(State(w, p), parts) && PassFits(w, p) && |seen| == |w.files[p.task.file].table|
    requires p.running && p.task.fileDone && !p.task.allowNonContiguous && !p.skipped
    requires forall i :: 0 <= i < |seen| ==> !seen[i].deleted
    ensures var (v, q) := RunPass(w, p, seen);
      Ok(State(v, q), parts) && Finished(State(v, q)) && Whole(v, p.task.file, parts[p.task.file])
    decreases |seen| - p.idx
  {
    var n := p.task.file;
    if p.idx == |seen| {
      FinishedIsWhole(State(w, Stop(p)), parts);
    } else {
      var s := State(w, p);
      var step := PassStep(seen[p.idx]);
      WorldSane(w, parts, None);
      IterateGrows(w, p, seen[p.idx]);
      StepKeeps(s, step, parts);
      var (v, q) := Iterate(w, p, seen[p.idx]);
      assert w.files[n].table[p.idx].decoded || w.files[n].table[p.idx].onDisk;
      if Loads(w, p, seen[p.idx]) {
        LoadingKeeps(w, parts, p, seen[p.idx]);
      }
      assert FileGrows(w.files[n], v.files[n]);
      FinalPassCompletes(v, q, seen, parts);
    }
  }

  /** Whatever is decoded and not on disk can be loaded. */
  predicate Loadable(w: World, n: nat) {
    n < |w.files| && forall i :: 0 <= i < |w.files[n].table| ==>
      var k := Key(n, i);
      ArticleOf(w, k).decoded && !ArticleOf(w, k).onDisk ==> Lookup(w, k).Some? && Lookup(w, k).value != []
  }

  /** A contiguous pass that nothing interrupts moves `assembler_next_index` exactly to the first part that is not
      on disk, for any file and any mix of direct and appended writes. */
  lemma {:induction false} ContiguousPassStopsAtFirstGap(w: World, p: Pass, seen: seq<Seen>)
    requires PassFits(w, p) && |seen| == |w.files[p.task.file].table| && p.running
    requires !p.task.fileDone && !p.task.allowNonContiguous && !p.skipped
    requires p.idx == w.files[p.task.file].next && Loadable(w, p.task.file)
    requires forall i :: 0 <= i < |seen| ==> !seen[i].deleted
    requires forall i :: 0 <= i < p.idx ==> w.files[p.task.file].table[i].onDisk
    ensures var f := RunPass(w, p, seen).0.files[p.task.file];
      && |f.table| == |seen| && f.next <= |seen|
      && (forall i :: 0 <= i < f.next ==> f.table[i].onDisk)
      && (f.next < |seen| ==> !f.table[f.next].onDisk && !f.table[f.next].decoded)
    decreases |seen| - p.idx
  {
    var n := p.task.file;
    if p.idx < |seen| {
      IterateGrows(w, p, seen[p.idx]);
      var (v, q) := Iterate(w, p, seen[p.idx]);
      assert FileGrows(w.files[n], v.files[n]);
      if q.running {
        ContiguousIterationAdvances(w, p, seen[p.idx]);
        ContiguousPassStopsAtFirstGap(v, q, seen);
      }
    }
  }

  /** The shape of an iteration that is not the last of a contiguous pass. */
  ghost predicate AdvancesTo(w: World, p: Pass, v: World, q: Pass)
    requires PassFits(w, p) && p.idx < |w.files[p.task.file].table|
  {
    var n := p.task.file;
    && q.idx == p.idx + 1 && !q.skipped && q.task == p.task && |v.files| == |w.files|
    && |v.files[n].table| == |w.files[n].table| && v.files[n].next == p.idx + 1 && v.files[n].table[p.idx].onDisk
    && (forall j :: 0 <= j < |v.files[n].table| && j != p.idx ==> v.files[n].table[j] == w.files[n].table[j])
    && forall j: Key :: j != Key(n, p.idx) ==>
        (j in v.table <==> j in w.table) && (j in w.table ==> v.table[j] == w.table[j])
  }

  lemma LoadingAdvances(w: World, p: Pass, seen: Seen)
    requires PassFits(w, p) && p.running && Loads(w, p, seen)
    requires !p.task.fileDone && !p.task.allowNonContiguous && !p.skipped
    requires p.idx == w.files[p.task.file].next && Loadable(w, p.task.file)
    ensures var (v, q) := LoadingIterate(w, p, seen); q.running ==> AdvancesTo(w, p, v, q)
  {
    var n, k := p.task.file, Key(p.task.file, p.idx);
    assert ArticleOf(w, k).decoded && !ArticleOf(w, k).onDisk;
    var w1 := LoadArticle(w, k);
    WriteLoadedMarks(w1.files[n], p, Lookup(w, k).value, seen.sparseOk);
    var (g, q) := WriteLoaded(w1.files[n], p, Lookup(w, k).value, seen.sparseOk);
    assert LoadingIterate(w, p, seen) == (w1.(files := w1.files[n := g]), q);
  }

  lemma ContiguousIterationAdvances(w: World, p: Pass, seen: Seen)
    requires PassFits(w, p) && p.running && p.idx < |w.files[p.task.file].table|
    requires !p.task.fileDone && !p.task.allowNonContiguous && !p.skipped && !seen.deleted
    requires p.idx == w.files[p.task.file].next && Loadable(w, p.task.file)
    requires Iterate(w, p, seen).1.running
    ensures var (v, q) := Iterate(w, p, seen); AdvancesTo(w, p, v, q) && Loadable(v, p.task.file)
  {
    var (v, q) := Iterate(w, p, seen);
    if Loads(w, p, seen) {
      LoadingAdvances(w, p, seen);
    } else {
      assert QuietIterate(w, p, seen).1.running;
      assert AdvancesTo(w, p, v, q);
    }
    LoadableElsewhere(w, v, p.task.file, p.idx);
  }

  lemma LoadableElsewhere(w: World, v: World, n: nat, i: nat)
    requires Loadable(w, n) && n < |v.files| && |v.files[n].table| == |w.files[n].table| && i < |v.files[n].table|
    requires v.files[n].table[i].onDisk
    requires forall j :: 0 <= j < |v.files[n].table| && j != i ==> v.files[n].table[j] == w.files[n].table[j]
    requires forall j: Key :: j != Key(n, i) ==> (j in v.table <==> j in w.table) && (j in w.table ==> v.table[j] == w.table[j])
    ensures Loadable(v, n)
  {
    forall j | 0 <= j < |v.files[n].table|
      ensures var k := Key(n, j);
        ArticleOf(v, k).decoded && !ArticleOf(v, k).onDisk ==> Lookup(v, k).Some? && Lookup(v, k).value != []
    {
      if j != i {
        assert Key(n, j) != Key(n, i);
        assert Lookup(v, Key(n, j)) == Lookup(w, Key(n, j));
      }
    }
  }

  /** The part the assembler was to write is decoded, not on disk, and nowhere in the cache. */
  predicate Lost(w: World, k: Key) {
    Known(w, k) && ArticleOf(w, k).decoded && !ArticleOf(w, k).onDisk && Lookup(w, k).None?
  }

  /** What an iteration has in its hand after it took a part from the cache. */
  lemma PartInHand(w: World, p: Pass, seen: Seen, parts: seq<Parts>)
    requires WorldOk(w, parts, None) && PassOk(w, p, parts) && PassFits(w, p) && p.running && Loads(w, p, seen)
    ensures var n, k := p.task.file, Key(p.task.file, p.idx);
      var w1 := LoadArticle(w, k);
      && p.idx < |parts[n]| && Lookup(w, k) == Some(parts[n][p.idx]) && parts[n][p.idx] != []
      && Known(w1, k) && Lookup(w1, k).None? && ArticleOf(w1, k).decoded && !ArticleOf(w1, k).onDisk
      && w1.files[n].next <= |w1.files[n].table|
      && var (f1, p1), (g1, q1) := OpenForPass(w.files[n], p, seen.sparseOk), OpenForPass(w1.files[n], p, seen.sparseOk);
         DropsData(f1, p, p1) == DropsData(g1, p, q1)
  {
    var n, k := p.task.file, Key(p.task.file, p.idx);
    LoadFinds(w, parts, k);
    var w1 := LoadArticle(w, k);
    assert FileOk(w1.files[n], n, w1.table, parts[n], Some(p.idx));
    assert ArticleOk(ArticleOf(w1, k), InMemory(w1.table, n, p.idx), w1.files[n].disk, parts[n], p.idx, true);
    assert SameButSaved(w.files[n], w1.files[n], p.idx);
    DropsIgnoresSaved(w.files[n], w1.files[n], p, seen.sparseOk);
  }

  /** An iteration that takes a part from the cache loses it if and only if it leaves through one of the two
      `break`s. */
  lemma LostExactlyThroughBreaks(w: World, p: Pass, seen: Seen, parts: seq<Parts>)
    requires WorldOk(w, parts, None) && PassOk(w, p, parts) && PassFits(w, p) && p.running && Loads(w, p, seen)
    ensures Lost(Iterate(w, p, seen).0, Key(p.task.file, p.idx)) <==> !Lossless(w, p, seen)
  {
    var n, k := p.task.file, Key(p.task.file, p.idx);
    PartInHand(w, p, seen, parts);
    var w1 := LoadArticle(w, k);
    WriteLoadedMarks(w1.files[n], p, parts[n][p.idx], seen.sparseOk);
    var g := WriteLoaded(w1.files[n], p, parts[n][p.idx], seen.sparseOk).0;
    assert Iterate(w, p, seen).0 == w1.(files := w1.files[n := g]);
  }

  lemma DropsIgnoresSaved(f: Nzf, g: Nzf, p: Pass, sparseOk: bool)
    requires p.idx < |f.table| && SameButSaved(f, g, p.idx)
    ensures var (f1, p1), (g1, q1) := OpenForPass(f, p, sparseOk), OpenForPass(g, p, sparseOk);
      DropsData(f1, p, p1) == DropsData(g1, p, q1)
  {
    OpenIgnoresSaved(f, g, p, sparseOk);
  }

  // --------------------------------------------------------------------------------------- a run into a late break

  ghost predicate Reaches(s: State, t: State, parts: seq<Parts>) {
    exists steps :: Runs(s, steps, parts) && After(s, steps, parts) == t
  }

  lemma {:induction false} RunsOn(s: State, steps: seq<Step>, step: Step, parts: seq<Parts>)
    requires Runs(s, steps, parts) && Enabled(After(s, steps, parts), step, parts)
    ensures Runs(s, steps + [step], parts) && After(s, steps + [step], parts) == Next(After(s, steps, parts), step, parts)
    decreases |steps|
  {
    var all := steps + [step];
    if steps == [] {
      assert all[1..] == [];
    } else {
      RunsOn(Next(s, steps[0], parts), steps[1..], step, parts);
      assert all[1..] == steps[1..] + [step];
    }
  }

  lemma ReachesNext(s: State, t: State, step: Step, parts: seq<Parts>)
    requires Reaches(s, t, parts) && Enabled(t, step, parts)
    ensures Reaches(s, Next(t, step, parts), parts)
  {
    var steps :| Runs(s, steps, parts) && After(s, steps, parts) == t;
    RunsOn(s, steps, step, parts);
  }

  /** A file of one article, which is this, and a memory of ten bytes that holds `table`. The file is a yEnc file, and has
      its path, as soon as these are known. */
  function OneFile(a: Article, yenc: bool, filepath: bool, table: map<Key, Bytes>, size: int): World {
    World(table, size, 10, 10, false, [Nzf([a], 0, [], yenc, filepath)])
  }

  lemma OneFileWith(a: Article, b: Article, yenc: bool, filepath: bool, table: map<Key, Bytes>, size: int)
    ensures WithArticle(OneFile(a, yenc, filepath, table, size), Key(0, 0), b) == OneFile(b, yenc, filepath, table, size)
  {
    assert [a][0 := b] == [b];
    var f := Nzf([a], 0, [], yenc, filepath);
    assert [f][0 := f.(table := [b])] == [f.(table := [b])];
  }

  function NewArticle(): Article {
    Article(0, 0, 0, None, false, false, false, false, false, None)
  }

  function Idle(): Pass {
    Pass(Task(0, false, false), 0, false, false, 0, false, false)
  }

  function NewJob(): State {
    State(OneFile(NewArticle(), false, false, map[], 0), Idle())
  }

  /** The header of the part is filled in, with all its offsets, and the file gets its path. */
  lemma PartIsLearnt(part: Bytes, a: Article)
    requires 0 < |part| && a == NewArticle().(dataSize := |part|, fileSize := |part|, decodedSize := Some(|part|))
    ensures Fresh(NewJob(), [[part]])
    ensures Reaches(NewJob(), State(OneFile(a, true, true, map[], 0), Idle()), [[part]])
  {
    var parts, header := [[part]], Header(true, 0, |part|, |part|, |part|);
    assert FreshFile(NewJob().w.files[0], parts[0]);
    assert Runs(NewJob(), [], parts) && Reaches(NewJob(), NewJob(), parts);
    assert Begin(parts[0], 0) == 0 && Begin(parts[0], 1) == |part|;
    ReachesNext(NewJob(), NewJob(), Learn(Key(0, 0), header), parts);
    var s := State(OneFile(a, true, false, map[], 0), Idle());
    assert [NewArticle()][0 := a] == [a];
    assert Next(NewJob(), Learn(Key(0, 0), header), parts).w.files == s.w.files;
    ReachesNext(NewJob(), s, PrepareFilepath(0), parts);
    assert Next(s, PrepareFilepath(0), parts).w.files == OneFile(a, true, true, map[], 0).files;
  }

  /** It is saved in memory, and decoded. */
  lemma PartIsSaved(part: Bytes, a: Article)
    requires 0 < |part| <= 10 && !a.lowestPartnum && Afresh(OneFile(a, true, true, map[], 0), Key(0, 0)) && a.decodedSize.Some?
    requires Reaches(NewJob(), State(OneFile(a, true, true, map[], 0), Idle()), [[part]])
    ensures Reaches(NewJob(), State(OneFile(a.(saved := true, decoded := true), true, true, map[Key(0, 0) := part], |part|), Idle()), [[part]])
  {
    var parts, k, table := [[part]], Key(0, 0), map[Key(0, 0) := part];
    var s1, save := State(OneFile(a, true, true, map[], 0), Idle()), Save(k, part, SaveEnv(false, false, DirectIO(false, None)));
    var s2 := State(OneFile(a.(saved := true), true, true, table, |part|), Idle());
    ReachesNext(NewJob(), s1, save, parts);
    OneFileWith(a, a.(saved := true), true, true, map[], 0);
    assert Next(s1, save, parts).w == s2.w;
    ReachesNext(NewJob(), s2, MarkDecoded(k), parts);
    OneFileWith(a.(saved := true), a.(saved := true, decoded := true), true, true, table, |part|);
  }

  /** When the cache fills, a pass that may leave gaps is begun for a file that can be written directly; the file system
      has no sparse files, and the part that the pass has taken is lost. */
  lemma PartIsLost(part: Bytes)
    requires 0 < |part| <= 10
    ensures exists t: State, seen: Seen ::
      && Fresh(NewJob(), [[part]]) && Reaches(NewJob(), t, [[part]]) && t.p.running && PassFits(t.w, t.p) && Known(t.w, Key(0, 0))
      && t.p.directWrite && CanDirectWrite(t.w.files[0], 0)
      && Lookup(t.w, Key(0, 0)) == Some(part) && Lost(Iterate(t.w, t.p, seen).0, Key(0, 0))
  {
    var a := NewArticle().(dataSize := |part|, fileSize := |part|, decodedSize := Some(|part|));
    PartIsLearnt(part, a);
    PartIsSaved(part, a);
    var s := State(OneFile(a.(saved := true, decoded := true), true, true, map[Key(0, 0) := part], |part|), Idle());
    var start := StartPass(Task(0, false, true), true);
    ReachesNext(NewJob(), s, start, [[part]]);
    GapPassLoses(NewJob(), Next(s, start, [[part]]), [[part]], Seen(false, false, true, false));
  }

  /** The first iteration of a pass that may leave gaps, when the file is empty and cannot be made sparse. */
  lemma GapPassLoses(s: State, t: State, parts: seq<Parts>, seen: Seen)
    requires Fresh(s, parts) && Reaches(s, t, parts) && PassFits(t.w, t.p) && t.p.running && Loads(t.w, t.p, seen)
    requires t.p.task.allowNonContiguous && !t.p.isOpen && t.w.files[t.p.task.file].disk == [] && !seen.sparseOk
    ensures Lost(Iterate(t.w, t.p, seen).0, Key(t.p.task.file, t.p.idx))
  {
    FreshOk(s, parts);
    var steps :| Runs(s, steps, parts) && After(s, steps, parts) == t;
    RunKeeps(s, steps, parts);
    LostExactlyThroughBreaks(t.w, t.p, seen, parts);
  }
}
