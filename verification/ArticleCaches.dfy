/** `ArticleCache` and `Assembler.assemble`, on the objects they update in place. */
module ArticleCaches {
  import opened Options
  import opened Storage
  import opened NzbFiles
  import opened CacheMap

  /** The index of no file is past its table, and only known articles are cached. */
  predicate Sound(w: World) {
    Sane(w) && forall k :: k in w.table ==> Known(w, k)
  }

  predicate InTable(w: World, keys: seq<Key>) {
    forall k :: k in keys ==> k in w.table
  }

  /** `v` is what the loop of `flush_articles` makes of `w` when it pops these articles. */
  predicate Drained(w: World, order: seq<Key>, io: seq<DirectIO>, v: World) {
    |io| == |order| && Sound(w) && AllKnown(w, order) && InTable(w, order) && v == FlushLoop(w, order, io)
  }

  lemma DrainOne(w: World, order: seq<Key>, io: seq<DirectIO>, v: World, k: Key, outcome: DirectIO)
    requires Drained(w, order, io, v) && k in v.table
    ensures Sane(v) && Known(v, k) && Drained(w, order + [k], io + [outcome], FlushOne(v, k, outcome))
  {
    FlushLoopTable(w, order, io);
    FlushLoopSnoc(w, order, io, k, outcome);
  }

  lemma FlushToDiskShape(w: World, k: Key, data: Bytes, io: DirectIO)
    requires Known(w, k) && Sane(w)
    ensures var v := FlushToDisk(w, k, data, io); SameShape(w, v) && Sane(v) && v.table == w.table
  {
    AssembleArticleLocal(w.files[k.file], k.index, data, io);
  }

  class ArticleCache {
    /** The files whose articles pass through the cache; article keys are places in it. */
    const files: seq<NzbFile>
    const upperLimit: nat
    var articleTable: map<Key, Bytes>
    var cacheSize: int
    var cacheLimit: int
    var directWrite: bool

    function Contents(): World
      reads this, files
    {
      World(articleTable, cacheSize, cacheLimit, upperLimit, directWrite,
            seq(|files|, i requires 0 <= i < |files| reads files => files[i].State()))
    }

    ghost predicate Valid()
      reads this, files
    {
      (forall i, j :: 0 <= i < j < |files| ==> files[i] != files[j]) && Sound(Contents())
    }

    constructor (files: seq<NzbFile>, upperLimit: nat)
      requires forall i, j :: 0 <= i < j < |files| ==> files[i] != files[j]
      requires forall i :: 0 <= i < |files| ==> files[i].Valid()
      ensures Valid() && this.files == files && this.upperLimit == upperLimit
      ensures articleTable == map[] && cacheSize == 0 && cacheLimit == 0
    {
      this.files, this.upperLimit := files, upperLimit;
      articleTable, cacheSize, cacheLimit, directWrite := map[], 0, 0, false;
    }

    method SetLimit(limit: int)
      requires Valid()
      modifies this`cacheLimit
      ensures Valid() && Contents() == NewLimit(old(Contents()), limit)
    {
      if limit < 0 {
        cacheLimit := upperLimit;
      } else {
        cacheLimit := if limit <= upperLimit then limit else upperLimit;
      }
      assert Contents().files == old(Contents()).files;
    }

    /** A reservation succeeds exactly when the new usage fits the current limit. */
    method ReserveSpace(size: nat) returns (ok: bool)
      modifies this`cacheSize
      ensures ok == (old(cacheSize) + size <= cacheLimit)
      ensures cacheSize == old(cacheSize) + if ok then size else 0
    {
      var usage := cacheSize + size;
      if usage > cacheLimit {
        return false;
      }
      cacheSize := usage;
      ok := true;
    }

    method FreeReservedSpace(size: nat)
      modifies this`cacheSize
      ensures cacheSize == old(cacheSize) - size
    {
      cacheSize := cacheSize - size;
    }

    /** Replace one article's record. */
    method SetArticle(k: Key, a: Article)
      requires Valid() && Known(Contents(), k)
      modifies files[k.file]
      ensures Valid() && Contents() == WithArticle(old(Contents()), k, a)
    {
      files[k.file].decodetable := files[k.file].decodetable[k.index := a];
      assert Contents().files == WithArticle(old(Contents()), k, a).files;
    }

    /** Try to write the article straight into its target file. */
    method DirectWrite(k: Key, data: Bytes, io: DirectIO) returns (ok: bool)
      requires Valid() && Known(Contents(), k)
      modifies files[k.file]
      ensures Valid()
      ensures var (f, written) := AssembleArticle(old(Contents()).files[k.file], k.index, data, io);
        ok == written && Contents() == old(Contents()).(files := old(Contents()).files[k.file := f])
    {
      AssembleArticleLocal(Contents().files[k.file], k.index, data, io);
      ok := files[k.file].AssembleOne(k.index, data, io);
      assert Contents().files == old(Contents()).files[k.file := files[k.file].State()];
    }

    /** `__flush_article_to_disk`. */
    method FlushArticleToDisk(k: Key, data: Bytes, io: DirectIO)
      requires Valid() && Known(Contents(), k)
      modifies files[k.file]
      ensures Valid() && Contents() == FlushToDisk(old(Contents()), k, data, io)
    {
      if directWrite {
        AssembleArticleLocal(Contents().files[k.file], k.index, data, io);
        ghost var w := Contents();
        var ok := DirectWrite(k, data, io);
        assert Contents().files[k.file] == AssembleArticle(w.files[k.file], k.index, data, io).0;
        assert Known(Contents(), k);
        if ok {
          SetArticle(k, files[k.file].decodetable[k.index].(saved := false));
          return;
        }
      }
      assert Contents().files == old(Contents()).files[k.file := Contents().files[k.file]];
      SetArticle(k, files[k.file].decodetable[k.index].(artId := true, adminFile := Some(data)));
    }

    method Save(k: Key, data: Bytes, env: SaveEnv)
      requires Valid() && Known(Contents(), k)
      modifies this`articleTable, this`cacheSize, files[k.file]
      ensures Valid() && Contents() == SaveArticle(old(Contents()), k, data, env)
    {
      if env.finished {
        return;
      }
      var article := files[k.file].decodetable[k.index];
      SetArticle(k, article.(saved := true));
      ghost var registered := Contents();
      var reserved := false;
      if !(article.lowestPartnum && !env.named) && cacheLimit != 0 {
        reserved := ReserveSpace(|data|);
      }
      assert Contents().files == registered.files;
      if reserved {
        articleTable := articleTable[k := data];
        assert Contents().files == registered.files;
      } else {
        FlushArticleToDisk(k, data, env.io);
      }
    }

    method Load(k: Key) returns (data: Option<Bytes>)
      requires Valid() && Known(Contents(), k)
      modifies this`articleTable, this`cacheSize, files[k.file]
      ensures Valid() && data == Lookup(old(Contents()), k) && Contents() == LoadArticle(old(Contents()), k)
    {
      data := None;
      var article := files[k.file].decodetable[k.index];
      if k in articleTable {
        data := Some(articleTable[k]);
        articleTable := articleTable - {k};
        FreeReservedSpace(|data.value|);
        assert Contents().files == old(Contents()).files;
      } else if article.artId {
        data := article.adminFile;
        article := article.(adminFile := None);
      }
      SetArticle(k, article.(saved := false));
    }

    /** One turn of the loop of `flush_articles`. */
    method PopAndFlush(k: Key, io: DirectIO)
      requires Valid() && k in articleTable
      modifies this`articleTable, files
      ensures Valid() && Contents() == FlushOne(old(Contents()), k, io)
      ensures articleTable == old(articleTable) - {k}
    {
      FlushOneShape(Contents(), k, io);
      var data := articleTable[k];
      articleTable := articleTable - {k};
      assert Contents().files == old(Contents()).files;
      FlushToDiskShape(Contents(), k, data, io);
      FlushArticleToDisk(k, data, io);
    }

    /** The loop of `flush_articles`: the articles leave in whatever order the dictionary pops them. */
    method PopAll() returns (ghost order: seq<Key>, ghost io: seq<DirectIO>)
      requires Valid()
      modifies this`articleTable, files
      ensures Valid() && articleTable == map[]
      ensures Drained(old(Contents()), order, io, Contents())
    {
      order, io := [], [];
      ghost var start := Contents();
      while |articleTable| > 0
        invariant Valid() && Drained(start, order, io, Contents())
        decreases |articleTable|
      {
        var k :| k in articleTable;
        var outcome: DirectIO := *;
        ghost var before := Contents();
        DrainOne(start, order, io, before, k, outcome);
        PopAndFlush(k, outcome);
        assert Contents() == FlushOne(before, k, outcome);
        order, io := order + [k], io + [outcome];
      }
    }

    /** `flush_articles`. */
    method FlushArticles() returns (ghost order: seq<Key>, ghost io: seq<DirectIO>)
      requires Valid()
      modifies this`articleTable, this`cacheSize, files
      ensures Valid() && articleTable == map[]
      ensures |io| == |order| && AllKnown(old(Contents()), order) && forall k :: k in order <==> k in old(articleTable)
      ensures Contents() == FlushLoop(old(Contents()).(size := 0), order, io)
    {
      cacheSize := 0;
      assert Contents().files == old(Contents()).files;
      ghost var start := Contents();
      order, io := PopAll();
      FlushLoopTable(start, order, io);
    }

    /** One turn of the loop of `purge_articles`. */
    method PurgeArticle(k: Key)
      requires Valid() && Known(Contents(), k)
      modifies this`articleTable, this`cacheSize, files
      ensures Valid() && Contents() == PurgeOne(old(Contents()), k)
    {
      var article := files[k.file].decodetable[k.index];
      if k in articleTable {
        var data := articleTable[k];
        articleTable := articleTable - {k};
        FreeReservedSpace(|data|);
        assert Contents().files == old(Contents()).files;
      } else if article.artId {
        SetArticle(k, article.(adminFile := None));
      }
    }

    /** `purge_articles`. */
    method PurgeArticles(keys: seq<Key>)
      requires Valid() && AllKnown(Contents(), keys)
      modifies this`articleTable, this`cacheSize, files
      ensures Valid() && Contents() == PurgeLoop(old(Contents()), keys)
    {
      var i := 0;
      while i < |keys|
        invariant 0 <= i <= |keys| && Valid() && AllKnown(Contents(), keys[i..])
        invariant PurgeLoop(Contents(), keys[i..]) == PurgeLoop(old(Contents()), keys)
      {
        assert keys[i..][0] == keys[i] && keys[i..][1..] == keys[i + 1..];
        assert Known(Contents(), keys[i..][0]);
        AllKnownRest(Contents(), PurgeOne(Contents(), keys[i]), keys[i..]);
        PurgeArticle(keys[i]);
        i := i + 1;
      }
    }

    /** The end of an iteration, on the file of the pass. */
    method WriteNext(pass: Pass, data: Bytes, sparseOk: bool) returns (next: Pass)
      requires Valid() && pass.task.file < |files| && pass.idx < |files[pass.task.file].decodetable|
      modifies files[pass.task.file]
      ensures Valid()
      ensures var (f, q) := WriteLoaded(old(Contents()).files[pass.task.file], pass, data, sparseOk);
        next == q && Contents() == old(Contents()).(files := old(Contents()).files[pass.task.file := f])
    {
      var n := pass.task.file;
      WriteLoadedGrows(Contents().files[n], pass, data, sparseOk);
      next := files[n].WriteForPass(pass, data, sparseOk);
      assert Contents().files == old(Contents()).files[n := files[n].State()];
    }

    /** The body of the loop of `Assembler.assemble`. */
    method Iteration(pass: Pass, seen: Seen) returns (next: Pass)
      requires Valid() && PassFits(Contents(), pass) && pass.running && pass.idx < |files[pass.task.file].decodetable|
      modifies this`articleTable, this`cacheSize, files[pass.task.file]
      ensures Valid() && (Contents(), next) == Iterate(old(Contents()), pass, seen)
    {
      var nzf := files[pass.task.file];
      var article := nzf.decodetable[pass.idx];
      next := pass.(idx := pass.idx + 1);
      if seen.deleted || (pass.task.allowNonContiguous && !seen.tried && !seen.paused) {
        return Stop(pass);
      }
      if article.onDisk {
        if pass.isOpen {
          next := next.(offset := pass.offset + article.decodedSize.GetOr(0));
        }
        if !pass.skipped && nzf.assemblerNextIndex == pass.idx {
          nzf.assemblerNextIndex := pass.idx + 1;
        }
        assert Contents().files == old(Contents()).files[pass.task.file := nzf.State()];
        return;
      }
      if !article.decoded {
        if pass.task.fileDone {
          return;
        } else if pass.task.allowNonContiguous {
          return next.(skipped := true);
        } else {
          return Stop(pass);
        }
      }
      var data := Load(Key(pass.task.file, pass.idx));
      assert Contents().files[pass.task.file] == nzf.State();
      if data.Some? && data.value != [] {
        next := WriteNext(pass, data.value, seen.sparseOk);
      }
    }

    /** `Assembler.assemble`; `seen[i]` is what the iteration at index i observes of other threads' state. */
    method Assemble(task: Task, direct: bool, seen: seq<Seen>)
      requires Valid() && task.file < |files| && |seen| == |files[task.file].decodetable|
      modifies this`articleTable, this`cacheSize, files[task.file]
      ensures Valid()
      ensures Contents() == RunPass(old(Contents()), BeginPass(old(Contents()), task, direct), seen).0
    {
      var pass := Pass(task, files[task.file].assemblerNextIndex, true, false, 0, false, direct);
      ghost var start, first := Contents(), pass;
      while pass.running && pass.idx < |files[task.file].decodetable|
        invariant Valid() && PassFits(Contents(), pass) && pass.task == task
        invariant |Contents().files[task.file].table| == |seen|
        invariant RunPass(start, first, seen).0 == RunPass(Contents(), pass, seen).0
        decreases pass.running, |seen| - pass.idx
      {
        IterateGrows(Contents(), pass, seen[pass.idx]);
        assert FileGrows(Contents().files[task.file], Iterate(Contents(), pass, seen[pass.idx]).0.files[task.file]);
        pass := Iteration(pass, seen[pass.idx]);
      }
    }
  }

  /** The loop takes the given articles out of memory, and only those. */
  lemma {:induction false} FlushLoopTable(w: World, order: seq<Key>, io: seq<DirectIO>)
    requires |io| == |order| && Sane(w) && AllKnown(w, order)
    ensures forall k :: k in FlushLoop(w, order, io).table <==> k in w.table && k !in order
    decreases |order|
  {
    if order != [] {
      assert Known(w, order[0]);
      if order[0] in w.table {
        FlushOneShape(w, order[0], io[0]);
        FlushToDiskShape(w.(table := w.table - {order[0]}), order[0], w.table[order[0]], io[0]);
        AllKnownRest(w, FlushOne(w, order[0], io[0]), order);
        FlushLoopTable(FlushOne(w, order[0], io[0]), order[1..], io[1..]);
      } else {
        FlushLoopTable(w, order[1..], io[1..]);
      }
    }
  }

  /** Flushing one more article at the end of the loop. */
  lemma {:induction false} FlushLoopSnoc(w: World, order: seq<Key>, io: seq<DirectIO>, k: Key, outcome: DirectIO)
    requires |io| == |order| && Sane(w) && AllKnown(w, order) && Known(w, k)
    requires k in FlushLoop(w, order, io).table
    ensures AllKnown(w, order + [k])
    ensures var v := FlushLoop(w, order, io);
      && Sane(v) && Known(v, k)
      && FlushLoop(w, order + [k], io + [outcome]) == FlushOne(v, k, outcome)
    decreases |order|
  {
    if order != [] {
      assert Known(w, order[0]);
      assert (order + [k])[1..] == order[1..] + [k] && (io + [outcome])[1..] == io[1..] + [outcome];
      if order[0] in w.table {
        FlushOneShape(w, order[0], io[0]);
        AllKnownRest(w, FlushOne(w, order[0], io[0]), order);
        FlushLoopSnoc(FlushOne(w, order[0], io[0]), order[1..], io[1..], k, outcome);
      } else {
        FlushLoopSnoc(w, order[1..], io[1..], k, outcome);
      }
    }
  }
}
