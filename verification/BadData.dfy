/**
 What becomes of data that no server has in good order: it is saved, so that par2 may still repair it, and its article
 is marked as on disk. No pass of the assembler takes it, and no byte of a target file depends on it.
 */
module BadData {
  import opened Options
  import opened Storage
  import opened CacheMap
  import Assembly
  import Connections
  import Decoders
  import Interleaving

  // ------------------------------------------------------------------------------------- passes do not look at it

  /** The world with other data cached for article k. */
  function WithData(w: World, k: Key, data: Bytes): World
    requires Known(w, k)
  {
    if k in w.table then w.(table := w.table[k := data])
    else if ArticleOf(w, k).adminFile.Some? then WithArticle(w, k, ArticleOf(w, k).(adminFile := Some(data)))
    else w
  }

  /** The file with another admin file for article i. */
  function Filed(f: Nzf, i: nat, data: Bytes): Nzf
    requires i < |f.table|
  {
    f.(table := f.table[i := f.table[i].(adminFile := Some(data))])
  }

  lemma OpenIgnoresFiled(f: Nzf, i: nat, data: Bytes, p: Pass, sparseOk: bool)
    requires p.idx < |f.table| && f.next <= |f.table| && i < |f.table|
    ensures var (f1, p1) := OpenForPass(f, p, sparseOk);
      f1.table == f.table && OpenForPass(Filed(f, i, data), p, sparseOk) == (Filed(f1, i, data), p1)
  {
    Assembly.SumIgnoresSaved(f.table[..f.next], Filed(f, i, data).table[..f.next], 0, |f.disk|);
  }

  lemma WriteIgnoresFiled(f: Nzf, i: nat, data: Bytes, p: Pass, part: Bytes, sparseOk: bool)
    requires p.idx < |f.table| && f.next <= |f.table| && i < |f.table| && i != p.idx
    ensures var (g, q) := WriteLoaded(f, p, part, sparseOk);
      |g.table| == |f.table| && WriteLoaded(Filed(f, i, data), p, part, sparseOk) == (Filed(g, i, data), q)
  {
    OpenIgnoresFiled(f, i, data, p, sparseOk);
    var (f1, p1) := OpenForPass(f, p, sparseOk);
    var a, b := f1.table[i].(adminFile := Some(data)), f1.table[p.idx].(onDisk := true);
    assert f1.table[i := a][p.idx := b] == f1.table[p.idx := b][i := a];
  }

  predicate InFile(w: World, k: Key)
    requires Known(w, k)
  {
    k !in w.table && ArticleOf(w, k).adminFile.Some?
  }

  lemma WithDataFiles(w: World, k: Key, data: Bytes)
    requires Known(w, k)
    ensures WithData(w, k, data).files
            == if InFile(w, k) then w.files[k.file := Filed(w.files[k.file], k.index, data)] else w.files
  {
  }

  /** The file after a turn that loads nothing. */
  function QuietFile(f: Nzf, p: Pass, seen: Seen): Nzf
    requires p.idx <= |f.table|
  {
    if p.idx < |f.table| && !seen.deleted && !(p.task.allowNonContiguous && !seen.tried && !seen.paused)
       && f.table[p.idx].onDisk && !p.skipped && f.next == p.idx then f.(next := p.idx + 1)
    else f
  }

  lemma QuietChanges(w: World, p: Pass, seen: Seen)
    requires PassFits(w, p) && p.running && !Loads(w, p, seen)
    ensures QuietIterate(w, p, seen).0 == w.(files := w.files[p.task.file := QuietFile(w.files[p.task.file], p, seen)])
  {
  }

  /** What such a turn looks at. */
  predicate LooksAlike(f: Nzf, g: Nzf, i: nat) {
    |f.table| == |g.table| && f.next == g.next &&
    (i < |f.table| ==>
      var a, b := f.table[i], g.table[i]; a.onDisk == b.onDisk && a.decoded == b.decoded && a.decodedSize == b.decodedSize)
  }

  lemma QuietLooks(w: World, w1: World, p: Pass, seen: Seen)
    requires PassFits(w, p) && PassFits(w1, p) && p.running && !Loads(w, p, seen)
    requires LooksAlike(w.files[p.task.file], w1.files[p.task.file], p.idx)
    ensures !Loads(w1, p, seen) && QuietIterate(w, p, seen).1 == QuietIterate(w1, p, seen).1
  {
  }

  lemma QuietIgnores(w: World, p: Pass, seen: Seen, k: Key, data: Bytes)
    requires PassFits(w, p) && p.running && Known(w, k) && !Loads(w, p, seen)
    ensures var w1 := WithData(w, k, data); PassFits(w1, p) && !Loads(w1, p, seen)
    ensures var (v, q), w1 := QuietIterate(w, p, seen), WithData(w, k, data);
      Known(v, k) && QuietIterate(w1, p, seen) == (WithData(v, k, data), q)
  {
    var w1, n := WithData(w, k, data), p.task.file;
    var f, v := w.files[n], QuietIterate(w, p, seen).0;
    WithDataFiles(w, k, data);
    QuietLooks(w, w1, p, seen);
    QuietChanges(w, p, seen);
    QuietChanges(w1, p, seen);
    WithDataFiles(v, k, data);
    assert ArticleOf(v, k) == ArticleOf(w, k);
    if InFile(w, k) && k.file == n {
      assert QuietFile(Filed(f, k.index, data), p, seen) == Filed(QuietFile(f, p, seen), k.index, data);
    }
    assert QuietIterate(w1, p, seen).0.files == WithData(v, k, data).files;
  }

  lemma LoadIgnoresInMemory(w: World, j: Key, k: Key, data: Bytes)
    requires Known(w, j) && Known(w, k) && j != k && k in w.table
    ensures LoadArticle(w.(table := w.table[k := data]), j) == var v := LoadArticle(w, j); v.(table := v.table[k := data])
  {
    if j in w.table {
      assert w.table[k := data] - {j} == (w.table - {j})[k := data];
    }
  }

  /** The article once its data was loaded. */
  function Loaded(a: Article, inMemory: bool): Article {
    a.(saved := false, adminFile := if !inMemory && a.artId then None else a.adminFile)
  }

  lemma LoadIs(w: World, j: Key)
    requires Known(w, j)
    ensures var v := LoadArticle(w, j);
      && v == w.(files := WithArticle(w, j, Loaded(ArticleOf(w, j), j in w.table)).files, table := v.table, size := v.size)
      && v.table == w.table - {j} && v.size == if j in w.table then w.size - |w.table[j]| else w.size
  {
    assert j !in w.table ==> w.table - {j} == w.table;
  }

  lemma LoadIgnoresInFile(w: World, j: Key, k: Key, data: Bytes)
    requires Known(w, j) && Known(w, k) && j != k && InFile(w, k)
    ensures var w1, v := WithArticle(w, k, ArticleOf(w, k).(adminFile := Some(data))), LoadArticle(w, j);
      Known(v, k) && LoadArticle(w1, j) == WithArticle(v, k, ArticleOf(w, k).(adminFile := Some(data)))
  {
    var a, b := ArticleOf(w, k).(adminFile := Some(data)), Loaded(ArticleOf(w, j), j in w.table);
    ArticlesCommute(w, k, a, j, b);
    LoadIs(w, j);
    LoadIs(WithArticle(w, k, a), j);
    assert ArticleOf(WithArticle(w, k, a), j) == ArticleOf(w, j);
  }

  lemma LoadLeaves(w: World, j: Key, k: Key)
    requires Known(w, j) && Known(w, k) && j != k
    ensures var v := LoadArticle(w, j);
      Known(v, k) && ArticleOf(v, k) == ArticleOf(w, k) && (k in v.table <==> k in w.table) && Lookup(v, k) == Lookup(w, k)
  {
  }

  lemma LoadIgnores(w: World, j: Key, k: Key, data: Bytes)
    requires Known(w, j) && Known(w, k) && j != k
    ensures Known(WithData(w, k, data), j) && Lookup(WithData(w, k, data), j) == Lookup(w, j)
    ensures Known(LoadArticle(w, j), k) && LoadArticle(WithData(w, k, data), j) == WithData(LoadArticle(w, j), k, data)
  {
    LoadLeaves(w, j, k);
    if k in w.table {
      LoadIgnoresInMemory(w, j, k, data);
    } else if InFile(w, k) {
      LoadIgnoresInFile(w, j, k, data);
    }
  }

  lemma ArticlesCommute(w: World, k: Key, a: Article, j: Key, b: Article)
    requires Known(w, k) && Known(w, j) && j != k
    ensures WithArticle(WithArticle(w, k, a), j, b).files == WithArticle(WithArticle(w, j, b), k, a).files
  {
    if j.file == k.file {
      var t := w.files[k.file].table;
      assert t[k.index := a][j.index := b] == t[j.index := b][k.index := a];
    }
  }

  /** The end of an iteration, in a world in which the part was taken from the cache. */
  function Written(w: World, p: Pass, part: Bytes, sparseOk: bool): (World, Pass)
    requires p.task.file < |w.files| && p.idx < |w.files[p.task.file].table|
    requires w.files[p.task.file].next <= |w.files[p.task.file].table|
  {
    var (g, q) := WriteLoaded(w.files[p.task.file], p, part, sparseOk);
    (w.(files := w.files[p.task.file := g]), q)
  }

  lemma WrittenLeaves(w: World, p: Pass, part: Bytes, sparseOk: bool, k: Key)
    requires p.task.file < |w.files| && p.idx < |w.files[p.task.file].table|
    requires w.files[p.task.file].next <= |w.files[p.task.file].table| && Known(w, k) && k != Key(p.task.file, p.idx)
    ensures var v := Written(w, p, part, sparseOk).0;
      v.table == w.table && Known(v, k) && ArticleOf(v, k) == ArticleOf(w, k)
  {
    WriteLoadedMarks(w.files[p.task.file], p, part, sparseOk);
  }

  lemma WrittenIgnoresInFile(w: World, p: Pass, part: Bytes, sparseOk: bool, k: Key, data: Bytes)
    requires p.task.file < |w.files| && p.idx < |w.files[p.task.file].table|
    requires w.files[p.task.file].next <= |w.files[p.task.file].table| && Known(w, k) && k != Key(p.task.file, p.idx)
    ensures var w1 := w.(files := w.files[k.file := Filed(w.files[k.file], k.index, data)]);
      var (v, q) := Written(w, p, part, sparseOk);
      Known(v, k) && Written(w1, p, part, sparseOk) == (v.(files := v.files[k.file := Filed(v.files[k.file], k.index, data)]), q)
  {
    var n := p.task.file;
    WrittenLeaves(w, p, part, sparseOk, k);
    if k.file == n {
      WriteIgnoresFiled(w.files[n], k.index, data, p, part, sparseOk);
      var g := WriteLoaded(w.files[n], p, part, sparseOk).0;
      assert w.files[n := Filed(w.files[n], k.index, data)][n := Filed(g, k.index, data)] == w.files[n := g][n := Filed(g, k.index, data)];
    } else {
      var g, h := WriteLoaded(w.files[n], p, part, sparseOk).0, Filed(w.files[k.file], k.index, data);
      assert w.files[k.file := h][n := g] == w.files[n := g][k.file := h];
    }
  }

  lemma WrittenIgnores(w: World, p: Pass, part: Bytes, sparseOk: bool, k: Key, data: Bytes)
    requires p.task.file < |w.files| && p.idx < |w.files[p.task.file].table|
    requires w.files[p.task.file].next <= |w.files[p.task.file].table| && Known(w, k) && k != Key(p.task.file, p.idx)
    ensures var n, w1 := p.task.file, WithData(w, k, data);
      n < |w1.files| && p.idx < |w1.files[n].table| && w1.files[n].next <= |w1.files[n].table|
    ensures var (v, q) := Written(w, p, part, sparseOk);
      Known(v, k) && Written(WithData(w, k, data), p, part, sparseOk) == (WithData(v, k, data), q)
  {
    WrittenLeaves(w, p, part, sparseOk, k);
    if InFile(w, k) {
      WrittenIgnoresInFile(w, p, part, sparseOk, k, data);
    }
  }

  lemma LoadingIs(w: World, p: Pass, seen: Seen)
    requires PassFits(w, p) && p.running && Loads(w, p, seen)
    ensures var j := Key(p.task.file, p.idx);
      var w1, found := LoadArticle(w, j), Lookup(w, j);
      LoadingIterate(w, p, seen)
      == if found.None? || found.value == [] then (w1, Advance(p)) else Written(w1, p, found.value, seen.sparseOk)
  {
  }

  /** The world with other data is as fit for a turn, and loads the same. */
  lemma LoadsAlike(w: World, p: Pass, seen: Seen, k: Key, data: Bytes)
    requires PassFits(w, p) && p.running && Known(w, k)
    ensures var w1 := WithData(w, k, data); PassFits(w1, p) && Loads(w1, p, seen) == Loads(w, p, seen)
  {
    WithDataFiles(w, k, data);
    var f, g := w.files[p.task.file], WithData(w, k, data).files[p.task.file];
    assert LooksAlike(f, g, p.idx);
  }

  lemma LoadingIgnores(w: World, p: Pass, seen: Seen, k: Key, data: Bytes)
    requires PassFits(w, p) && p.running && Known(w, k) && Loads(w, p, seen) && k != Key(p.task.file, p.idx)
    requires var w1 := WithData(w, k, data); PassFits(w1, p) && Loads(w1, p, seen)
    ensures var (v, q), w1 := LoadingIterate(w, p, seen), WithData(w, k, data);
      Known(v, k) && LoadingIterate(w1, p, seen) == (WithData(v, k, data), q)
  {
    var j := Key(p.task.file, p.idx);
    LoadIgnores(w, j, k, data);
    LoadingIs(w, p, seen);
    LoadingIs(WithData(w, k, data), p, seen);
    if Lookup(w, j).Some? && Lookup(w, j).value != [] {
      WrittenIgnores(LoadArticle(w, j), p, Lookup(w, j).value, seen.sparseOk, k, data);
    }
  }

  /** A turn does the same whatever is cached for an article that it does not load, as it never does for one that is
      marked. */
  lemma TurnIgnoresMarked(w: World, p: Pass, seen: Seen, k: Key, data: Bytes)
    requires PassFits(w, p) && p.running && Known(w, k) && ArticleOf(w, k).onDisk
    ensures PassFits(WithData(w, k, data), p)
    ensures var (v, q) := Iterate(w, p, seen);
      Known(v, k) && ArticleOf(v, k).onDisk && Iterate(WithData(w, k, data), p, seen) == (WithData(v, k, data), q)
  {
    IterateGrows(w, p, seen);
    LoadsAlike(w, p, seen, k, data);
    if Loads(w, p, seen) {
      LoadingIgnores(w, p, seen, k, data);
    } else {
      QuietIgnores(w, p, seen, k, data);
    }
    var v := Iterate(w, p, seen).0;
    assert FileGrows(w.files[k.file], v.files[k.file]);
    assert ArticleGrows(ArticleOf(w, k), ArticleOf(v, k));
  }

  /** A whole pass leaves the data of a marked article where it is, and nothing it writes to any file depends on it. */
  lemma {:induction false} PassIgnoresMarked(w: World, p: Pass, seen: seq<Seen>, k: Key, data: Bytes)
    requires PassFits(w, p) && |seen| == |w.files[p.task.file].table| && Known(w, k) && ArticleOf(w, k).onDisk
    ensures PassFits(WithData(w, k, data), p) && |seen| == |WithData(w, k, data).files[p.task.file].table|
    ensures var (v, q) := RunPass(w, p, seen);
      && Known(v, k) && ArticleOf(v, k).onDisk && Lookup(v, k) == Lookup(w, k)
      && RunPass(WithData(w, k, data), p, seen) == (WithData(v, k, data), q)
    decreases p.running, |seen| - p.idx
  {
    if p.running && p.idx < |seen| {
      TurnIgnoresMarked(w, p, seen[p.idx], k, data);
      IterateGrows(w, p, seen[p.idx]);
      TurnLeavesMarked(w, p, seen[p.idx], k);
      var (v, q) := Iterate(w, p, seen[p.idx]);
      assert FileGrows(w.files[p.task.file], v.files[p.task.file]);
      PassIgnoresMarked(v, q, seen, k, data);
    }
  }

  lemma TurnLeavesMarked(w: World, p: Pass, seen: Seen, k: Key)
    requires PassFits(w, p) && p.running && Known(w, k) && ArticleOf(w, k).onDisk
    ensures var v := Iterate(w, p, seen).0; Known(v, k) && Lookup(v, k) == Lookup(w, k)
  {
    if Loads(w, p, seen) {
      LoadingLeaves(w, p, seen, k);
    } else {
      QuietTurnTouches(w, p, seen);
      assert Untouched(w, QuietIterate(w, p, seen).0, k);
    }
  }

  lemma LoadingLeaves(w: World, p: Pass, seen: Seen, k: Key)
    requires PassFits(w, p) && p.running && Loads(w, p, seen) && Known(w, k) && k != Key(p.task.file, p.idx)
    ensures var v := LoadingIterate(w, p, seen).0; Known(v, k) && Lookup(v, k) == Lookup(w, k)
  {
    var j := Key(p.task.file, p.idx);
    var w1, found := LoadArticle(w, j), Lookup(w, j);
    LoadLeaves(w, j, k);
    LoadingIs(w, p, seen);
    if found.Some? && found.value != [] {
      WrittenLeaves(w1, p, found.value, seen.sparseOk, k);
    }
  }

  // ---------------------------------------------------------------------------------------- from decoding to the end

  /** From the moment bad data is saved and its article marked: until a later save, load or purge of this article no turn
      of any pass takes the data, it stays loadable but for a flush that writes it to its place, and without a flush it
      is still where the save put it. */
  lemma BadDataIsLeftOver(a: Decoders.Fetched, reply: Decoders.Reply, job: Decoders.Job, servers: seq<Decoders.Server>,
                          w: World, k: Key, env: SaveEnv, ops: seq<Op>)
    requires a.fetcher.Some? && !a.decoded && !a.onDisk && !job.precheck
    requires Decoders.SavedYetSkipped(Decoders.Decode(a, reply, job, servers))
    requires MapOk(w) && Known(w, k) && Lookup(w, k).None? && !env.finished
    ensures var data := Decoders.Decode(a, reply, job, servers).saved.value;
      var saved := SaveArticle(w, k, data, env);
      && Decoders.Try(reply, job) == Decoders.BadData(data) && Known(saved, k) && Safe(Marked(saved, k), k, data)
      && (LegalRun(Marked(saved, k), ops) && NoneConsumes(ops, k) ==>
          && Untaken(Marked(saved, k), ops, k)
          && var last := DoAll(Marked(saved, k), ops);
             && MapOk(last) && Known(last, k)
             && (SparedThroughout(Marked(saved, k), ops, k, data) ==> Safe(last, k, data))
             && ((forall i :: 0 <= i < |ops| ==> !ops[i].FlushTurn?) ==> Lookup(last, k) == Lookup(saved, k)))
  {
    Decoders.BadDataIsSkippedExactly(a, reply, job, servers);
    var data := Decoders.Decode(a, reply, job, servers).saved.value;
    SaveStores(w, k, data, env);
    var saved := SaveArticle(w, k, data, env);
    MarkKeeps(saved, k);
    var marked := Marked(saved, k);
    assert Lookup(marked, k) == Lookup(saved, k);
    if LegalRun(marked, ops) && NoneConsumes(ops, k) {
      MarkedIsNeverTaken(marked, ops, k, data);
      SavedIsLoaded(marked, ops, k, data);
    }
  }

  /** A job with a file of one part, once the header of that part is filled in and the file has its path. */
  function Learnt(header: Header): World {
    var a := Interleaving.WithHeader(Interleaving.NewArticle(), header);
    Interleaving.OneFile(a, header.yenc, true, map[], 0)
  }

  /** The part is saved, and its article marked as decoded; `marked` is whether it is marked as on disk already. */
  function Registered(header: Header, data: Bytes, marked: bool): World {
    var k, saved := Key(0, 0), SaveArticle(Learnt(header), Key(0, 0), data, SaveEnv(false, true, DirectIO(true, None)));
    WithArticle(saved, k, ArticleOf(saved, k).(decoded := true, onDisk := marked))
  }

  /** A new job with a file of one part, of which the only server has a damaged copy. What the last pass makes of it
      depends on whether the pass begins before or after the article is marked as on disk: before, it writes the bad
      data; after, it goes through the file and leaves it empty, and the data is still in memory. */
  lemma BadDataIsNotWritten(posted: Bytes, data: Bytes, header: Header, seen: Seen, marked: bool)
    requires posted != [] && 0 < |data| <= 10 && !seen.deleted
    ensures Interleaving.Fresh(Interleaving.NewJob(), [[posted]])
    ensures var server := Decoders.Server(0, true, 0);
      var o := Decoders.Decode(Decoders.Fetched(Some(server), {}, 0, None, false, false),
                               Decoders.Reply(222, |data|, [], Decoders.Yenc(false, header, data)),
                               Decoders.Job(false, false), [server]);
      Decoders.SavedYetSkipped(o) && o.saved == Some(data) && o.a.header == Some(header)
    ensures var w, k := Registered(header, data, marked), Key(0, 0);
      && PassFits(w, BeginPass(w, Task(0, true, false), false))
      && var last := RunPass(w, BeginPass(w, Task(0, true, false), false), [seen]).0;
         && |last.files| == 1 && last.files[0].next == 1 && Known(last, k)
         && last.files[0].disk == (if marked then [] else data)
         && Lookup(last, k) == if marked then Some(data) else None
  {
    assert Interleaving.FreshFile(Interleaving.NewJob().w.files[0], [posted]);
    var w := Registered(header, data, marked);
    var p := BeginPass(w, Task(0, true, false), false);
    if !marked {
      assert Loads(w, p, seen) && Lookup(w, Key(0, 0)) == Some(data);
      assert PWrite([], 0, data) == data;
    }
  }
}
