/**
 The two-level cache (memory table and admin files) seen as one map from article to bytes, and the accounting of
 its memory, for any data whatever.
 */
module CacheMap {
  import opened Options
  import opened Storage

  // --------------------------------------------------------------------------------------------------- accounting

  /** Total length of the data in a table. */
  ghost function TotalLength<K>(table: map<K, Bytes>): nat
    decreases |table|
  {
    if table == map[] then 0
    else
      var k :| k in table;
      |table[k]| + TotalLength(table - {k})
  }

  /** Whichever article is taken out first, the total is the same. */
  lemma {:induction false} TotalWithout<K>(table: map<K, Bytes>, k: K)
    requires k in table
    ensures TotalLength(table) == |table[k]| + TotalLength(table - {k})
    decreases |table|
  {
    var first :| first in table && TotalLength(table) == |table[first]| + TotalLength(table - {first});
    if first != k {
      TotalWithout(table - {first}, k);
      TotalWithout(table - {k}, first);
      assert table - {first} - {k} == table - {k} - {first};
    }
  }

  lemma TotalWith<K>(table: map<K, Bytes>, k: K, data: Bytes)
    requires k !in table
    ensures TotalLength(table[k := data]) == TotalLength(table) + |data|
  {
    TotalWithout(table[k := data], k);
    assert table[k := data] - {k} == table;
  }

  /** By how much `__cache_size` exceeds the total length of what the table holds. It is zero but after a flush that other
      calls came between; `CacheSizes` says what it is then. */
  ghost function Drift(w: World): int {
    w.size - TotalLength(w.table)
  }

  // --------------------------------------------------------------------------------------------- the abstract map

  /** An article's data is in memory or in the admin folder, never both, and the job knows of it. The mark `onDisk` says
      nothing about that: bad data that is saved is marked too. */
  predicate Exclusive(w: World, k: Key)
    requires Known(w, k)
  {
    var a := ArticleOf(w, k);
    && (k in w.table ==> a.adminFile.None? && a.saved)
    && (a.adminFile.Some? ==> a.artId && a.saved)
  }

  /** The two levels are one map, whatever the size is. */
  ghost predicate MapOk(w: World) {
    && Sane(w)
    && (forall k :: k in w.table ==> Known(w, k))
    && forall k :: Known(w, k) ==> Exclusive(w, k)
  }

  predicate SameShape(w: World, v: World) {
    |v.files| == |w.files| && forall f :: 0 <= f < |w.files| ==> |v.files[f].table| == |w.files[f].table|
  }

  predicate Untouched(w: World, v: World, j: Key)
    requires Known(w, j)
  {
    && Known(v, j) && ArticleOf(v, j) == ArticleOf(w, j)
    && (j in v.table <==> j in w.table) && (j in w.table ==> v.table[j] == w.table[j])
  }

  /** Nothing about any other article is changed; in particular what can be loaded for it. */
  ghost predicate SameElsewhere(w: World, v: World, k: Key) {
    SameShape(w, v) && Sane(v) && forall j :: Known(w, j) && j != k ==> Untouched(w, v, j)
  }

  lemma ElsewhereKeeps(w: World, v: World, k: Key)
    requires MapOk(w) && Known(w, k) && SameElsewhere(w, v, k) && Known(v, k) && Exclusive(v, k)
    requires forall j :: j in v.table ==> Known(w, j)
    ensures MapOk(v)
  {
    forall j | Known(v, j) ensures Exclusive(v, j) {
      if j != k {
        assert Exclusive(w, j) && Untouched(w, v, j);
      }
    }
  }

  /** A call that changes one article's record and its table entry changes nothing elsewhere. */
  lemma OneArticleElsewhere(w: World, k: Key, b: Article, v: World)
    requires Known(w, k) && Sane(w)
    requires v.files == WithArticle(w, k, b).files
    requires v.table == w.table || v.table == w.table - {k} || (k in v.table && v.table == w.table[k := v.table[k]])
    ensures SameElsewhere(w, v, k) && Known(v, k) && ArticleOf(v, k) == b
  {
  }

  /** `data` was put into the target file of article k, at the article's own offset. */
  predicate WrittenTo(w: World, k: Key, data: Bytes)
    requires Known(w, k)
  {
    var f, a := w.files[k.file], ArticleOf(w, k);
    a.onDisk && (data != [] ==> InPlace(f.disk, a.dataBegin, data))
  }

  /** Where `data` of article k is after the cache let go of it: in the admin folder, or in its target file. */
  predicate KeptOrWritten(v: World, k: Key, data: Bytes)
    requires Known(v, k)
  {
    Lookup(v, k) == Some(data) || (Lookup(v, k) == None && WrittenTo(v, k, data))
  }

  /** A direct write touches the record of its own article only, and a successful one puts the bytes in place. */
  lemma AssembleArticleLocal(f: Nzf, i: nat, data: Bytes, io: DirectIO)
    requires i < |f.table| && f.next <= |f.table|
    ensures var (g, written) := AssembleArticle(f, i, data, io);
      && g.table == f.table[i := f.table[i].(onDisk := written || f.table[i].onDisk)] && g.next <= |g.table|
      && (written && data != [] ==> InPlace(g.disk, f.table[i].dataBegin, data))
  {
    var (g, written) := AssembleArticle(f, i, data, io);
    if !written {
      assert g.table == f.table == f.table[i := f.table[i]];
    }
  }

  lemma FlushToDiskStores(w: World, k: Key, data: Bytes, io: DirectIO)
    requires Known(w, k) && Sane(w) && k !in w.table
    requires ArticleOf(w, k).adminFile.None? && ArticleOf(w, k).saved
    ensures var v := FlushToDisk(w, k, data, io);
      && v.table == w.table && v.size == w.size && v.limit == w.limit
      && SameElsewhere(w, v, k) && Known(v, k) && Exclusive(v, k) && KeptOrWritten(v, k, data)
      && ArticleOf(v, k).dataBegin == ArticleOf(w, k).dataBegin && (ArticleOf(w, k).onDisk ==> ArticleOf(v, k).onDisk)
  {
    AssembleArticleLocal(w.files[k.file], k.index, data, io);
  }

  /** Putting the article in `saved_articles`. */
  lemma RegisterKeeps(w: World, k: Key)
    requires MapOk(w) && Known(w, k) && k !in w.table && ArticleOf(w, k).adminFile.None?
    ensures var w1 := WithArticle(w, k, ArticleOf(w, k).(saved := true)); MapOk(w1) && SameElsewhere(w, w1, k)
  {
    var b := ArticleOf(w, k).(saved := true);
    OneArticleElsewhere(w, k, b, WithArticle(w, k, b));
    ElsewhereKeeps(w, WithArticle(w, k, b), k);
  }

  lemma KeepInMemory(w: World, k: Key, data: Bytes)
    requires MapOk(w) && Known(w, k) && k !in w.table && FitsInMemory(w, data)
    requires ArticleOf(w, k).adminFile.None? && ArticleOf(w, k).saved
    ensures var v := w.(size := w.size + |data|, table := w.table[k := data]);
      MapOk(v) && Drift(v) == Drift(w) && SameElsewhere(w, v, k) && Lookup(v, k) == Some(data) && v.size <= v.limit
  {
    var v := w.(size := w.size + |data|, table := w.table[k := data]);
    assert SameElsewhere(w, v, k);
    TotalWith(w.table, k, data);
    ElsewhereKeeps(w, v, k);
  }

  /** Saving an article afresh stores exactly its data: it can be loaded back, or it is in the target file; every
      other article, and the accounting, is as it should be. */
  lemma SaveStores(w: World, k: Key, data: Bytes, env: SaveEnv)
    requires MapOk(w) && Known(w, k) && Lookup(w, k).None? && !env.finished
    ensures var v := SaveArticle(w, k, data, env);
      && MapOk(v) && Drift(v) == Drift(w) && SameElsewhere(w, v, k) && Known(v, k) && KeptOrWritten(v, k, data)
      && v.limit == w.limit && (v.size > w.size ==> v.size <= v.limit)
  {
    assert Exclusive(w, k);
    var w1 := WithArticle(w, k, ArticleOf(w, k).(saved := true));
    RegisterKeeps(w, k);
    if (ArticleOf(w, k).lowestPartnum && !env.named) || !FitsInMemory(w1, data) {
      FlushToDiskStores(w1, k, data, env.io);
      var v := FlushToDisk(w1, k, data, env.io);
      ElsewhereKeeps(w1, v, k);
      ElsewhereTwice(w, w1, v, k);
      assert SaveArticle(w, k, data, env) == v;
    } else {
      KeepInMemory(w1, k, data);
      ElsewhereTwice(w, w1, w1.(size := w1.size + |data|, table := w1.table[k := data]), k);
    }
  }

  lemma ElsewhereTwice(u: World, v: World, w: World, k: Key)
    requires SameElsewhere(u, v, k) && SameElsewhere(v, w, k)
    ensures SameElsewhere(u, w, k)
  {
    forall j | Known(u, j) && j != k ensures Untouched(u, w, j) {
      assert Untouched(u, v, j) && Untouched(v, w, j);
    }
  }

  /** Loading returns what the map holds and removes it, from memory, the admin folder and `saved_articles`. */
  lemma LoadRemoves(w: World, k: Key)
    requires MapOk(w) && Known(w, k)
    ensures var v := LoadArticle(w, k);
      && MapOk(v) && Drift(v) == Drift(w) && SameElsewhere(w, v, k) && Known(v, k) && Lookup(v, k).None? && !ArticleOf(v, k).saved
      && v.limit == w.limit && v.size <= w.size
      && v.files[k.file].disk == w.files[k.file].disk && ArticleOf(v, k).onDisk == ArticleOf(w, k).onDisk
  {
    assert Exclusive(w, k);
    if k in w.table {
      TotalWithout(w.table, k);
    }
    var v := LoadArticle(w, k);
    OneArticleElsewhere(w, k, ArticleOf(v, k), v);
    ElsewhereKeeps(w, v, k);
  }

  /** Flushing one article out of memory leaves it to be loaded, or puts it into its target file. */
  lemma FlushOneMoves(w: World, k: Key, io: DirectIO)
    requires MapOk(w) && k in w.table
    ensures Known(w, k)
    ensures var v := FlushOne(w, k, io);
      && MapOk(v) && v.table == w.table - {k} && v.size == w.size && v.limit == w.limit
      && SameElsewhere(w, v, k) && Known(v, k) && KeptOrWritten(v, k, w.table[k])
      && ArticleOf(v, k).dataBegin == ArticleOf(w, k).dataBegin && (ArticleOf(w, k).onDisk ==> ArticleOf(v, k).onDisk)
  {
    var w1 := w.(table := w.table - {k});
    assert Exclusive(w, k);
    assert SameElsewhere(w, w1, k);
    FlushToDiskStores(w1, k, w.table[k], io);
    ElsewhereTwice(w, w1, FlushOne(w, k, io), k);
    ElsewhereKeeps(w, FlushOne(w, k, io), k);
  }

  /** Purging one article leaves nothing of it, and touches no other. */
  lemma PurgeOneRemoves(w: World, k: Key)
    requires MapOk(w) && Known(w, k)
    ensures var v := PurgeOne(w, k);
      && MapOk(v) && Drift(v) == Drift(w) && SameElsewhere(w, v, k) && Known(v, k) && Lookup(v, k).None?
      && v.limit == w.limit && v.size <= w.size && ArticleOf(v, k).onDisk == ArticleOf(w, k).onDisk
  {
    assert Exclusive(w, k);
    if k in w.table {
      TotalWithout(w.table, k);
    }
    var v := PurgeOne(w, k);
    assert w.files[k.file].table[k.index := ArticleOf(w, k)] == w.files[k.file].table;
    assert WithArticle(w, k, ArticleOf(w, k)).files == w.files;
    OneArticleElsewhere(w, k, ArticleOf(v, k), v);
    ElsewhereKeeps(w, v, k);
  }

  /** A changed limit touches no data, and never exceeds the upper limit. */
  lemma NewLimitMoves(w: World, limit: int)
    requires MapOk(w)
    ensures var v := NewLimit(w, limit);
      MapOk(v) && v.table == w.table && v.files == w.files && v.size == w.size && v.limit <= w.upperLimit
      && (0 <= limit ==> v.limit <= limit) && 0 <= v.limit
  {
    var v := NewLimit(w, limit);
    forall k | Known(v, k) ensures Exclusive(v, k) {
      assert Exclusive(w, k);
    }
  }

  // ------------------------------------------------------------------------------------- bytes in the target files

  /** Where the two overlap they have the same bytes. */
  predicate Agree(at: nat, data: Bytes, pos: nat, other: Bytes) {
    forall i, j :: 0 <= i < |data| && 0 <= j < |other| && at + i == pos + j ==> data[i] == other[j]
  }

  predicate InPlace(disk: Bytes, at: nat, data: Bytes) {
    at + |data| <= |disk| && disk[at..at + |data|] == data
  }

  lemma PWriteAt(disk: Bytes, pos: nat, data: Bytes, i: nat)
    requires i < |disk|
    ensures i < |PWrite(disk, pos, data)|
    ensures PWrite(disk, pos, data)[i] == if pos <= i < pos + |data| then data[i - pos] else disk[i]
  {
  }

  /** A write leaves what was in its place there exactly when it agrees with it. */
  lemma WriteKeepsExactly(disk: Bytes, at: nat, data: Bytes, pos: nat, other: Bytes)
    requires InPlace(disk, at, data)
    ensures InPlace(PWrite(disk, pos, other), at, data) <==> Agree(at, data, pos, other)
  {
    var after := PWrite(disk, pos, other);
    forall i | 0 <= i < |data|
      ensures at + i < |after| && after[at + i] == if pos <= at + i < pos + |other| then other[at + i - pos] else data[i]
    {
      assert disk[at..at + |data|][i] == disk[at + i];
      PWriteAt(disk, pos, other, at + i);
    }
    if data == [] {
      PWriteGrows(disk, pos, other);
    } else {
      assert at + (|data| - 1) < |after|;
    }
    forall i, j | 0 <= i < |data| && 0 <= j < |other| && at + i == pos + j && InPlace(after, at, data)
      ensures data[i] == other[j]
    {
      assert after[at..at + |data|][i] == after[at + i];
    }
    if Agree(at, data, pos, other) {
      forall i | 0 <= i < |data| ensures after[at..at + |data|][i] == data[i] {
        assert after[at..at + |data|][i] == after[at + i];
      }
    }
  }

  lemma PWriteGrows(disk: Bytes, pos: nat, data: Bytes)
    ensures |disk| <= |PWrite(disk, pos, data)|
  {
  }

  lemma AgreePrefix(at: nat, data: Bytes, pos: nat, other: Bytes, n: nat)
    requires Agree(at, data, pos, other) && n <= |other|
    ensures Agree(at, data, pos, other[..n])
  {
  }

  /** A direct write of article i, complete or not, spares what is in its place and agrees with it. */
  lemma AssembleArticleSpares(f: Nzf, i: nat, other: Bytes, io: DirectIO, at: nat, data: Bytes)
    requires i < |f.table| && f.next <= |f.table| && data != [] && InPlace(f.disk, at, data)
    requires Agree(at, data, f.table[i].dataBegin, other)
    ensures InPlace(AssembleArticle(f, i, other, io).0.disk, at, data)
  {
    var pos := f.table[i].dataBegin;
    WriteKeepsExactly(f.disk, at, data, pos, other);
    if io.failsAfter.Some? && io.failsAfter.value < |other| {
      AgreePrefix(at, data, pos, other, io.failsAfter.value);
      WriteKeepsExactly(f.disk, at, data, pos, other[..io.failsAfter.value]);
    }
  }

  function BeginOf(w: World, k: Key): nat
    requires Known(w, k)
  {
    ArticleOf(w, k).dataBegin
  }

  lemma FlushToDiskSpares(w: World, j: Key, other: Bytes, io: DirectIO, k: Key, data: Bytes)
    requires Known(w, j) && Known(w, k) && j != k && Sane(w) && WrittenTo(w, k, data)
    requires j.file == k.file ==> Agree(BeginOf(w, k), data, BeginOf(w, j), other)
    ensures var v := FlushToDisk(w, j, other, io); Known(v, k) && WrittenTo(v, k, data)
  {
    AssembleArticleLocal(w.files[j.file], j.index, other, io);
    if data != [] && j.file == k.file {
      AssembleArticleSpares(w.files[k.file], j.index, other, io, BeginOf(w, k), data);
    }
  }

  /** The article's data can be loaded, or is in its place in the target file. */
  predicate Safe(w: World, k: Key, data: Bytes) {
    Known(w, k) && (Lookup(w, k) == Some(data) || (Lookup(w, k).None? && WrittenTo(w, k, data)))
  }

  predicate AgreesInMemory(w: World, k: Key, data: Bytes, j: Key)
    requires Known(w, k)
  {
    j in w.table && Known(w, j) && j != k && j.file == k.file ==> Agree(BeginOf(w, k), data, BeginOf(w, j), w.table[j])
  }

  /** Nothing in memory claims the bytes of `data` in the target file for anything else. */
  ghost predicate Unclaimed(w: World, k: Key, data: Bytes) {
    Known(w, k) && forall j :: j in w.table ==> AgreesInMemory(w, k, data, j)
  }

  lemma FlushOneSafe(w: World, first: Key, io: DirectIO, k: Key, data: Bytes)
    requires MapOk(w) && first in w.table && Safe(w, k, data) && AgreesInMemory(w, k, data, first)
    ensures Known(w, first) && Safe(FlushOne(w, first, io), k, data)
  {
    FlushOneMoves(w, first, io);
    if k != first {
      var w1 := w.(table := w.table - {first});
      assert Untouched(w, FlushOne(w, first, io), k);
      if Lookup(w, k).None? {
        assert AgreesInMemory(w, k, data, first);
        FlushToDiskSpares(w1, first, w.table[first], io, k, data);
      }
    }
  }

  lemma FlushOneUnclaimed(w: World, first: Key, io: DirectIO, k: Key, data: Bytes)
    requires MapOk(w) && first in w.table && Unclaimed(w, k, data)
    ensures Known(w, first) && Unclaimed(FlushOne(w, first, io), k, data)
  {
    FlushOneMoves(w, first, io);
    var v := FlushOne(w, first, io);
    assert k != first ==> Untouched(w, v, k);
    forall j | j in v.table ensures AgreesInMemory(v, k, data, j) {
      assert j != first && Known(w, j) && Untouched(w, v, j) && AgreesInMemory(w, k, data, j);
    }
  }

  // ------------------------------------------------------------------------------------------------- whole calls

  predicate AllKnown(w: World, keys: seq<Key>) {
    forall i :: 0 <= i < |keys| ==> Known(w, keys[i])
  }

  lemma AllKnownRest(w: World, v: World, keys: seq<Key>)
    requires AllKnown(w, keys) && SameShape(w, v) && keys != []
    ensures AllKnown(v, keys[1..])
  {
    forall i | 0 <= i < |keys[1..]| ensures Known(v, keys[1..][i]) {
      assert Known(w, keys[i + 1]);
    }
  }

  /** `flush_articles` after it has reset the size: every article leaves memory, in the given order. */
  function FlushLoop(w: World, order: seq<Key>, io: seq<DirectIO>): World
    requires |io| == |order| && Sane(w) && AllKnown(w, order)
    decreases |order|
  {
    if order == [] then w
    else
      assert Known(w, order[0]);
      if order[0] in w.table then
        FlushOneShape(w, order[0], io[0]);
        AllKnownRest(w, FlushOne(w, order[0], io[0]), order);
        FlushLoop(FlushOne(w, order[0], io[0]), order[1..], io[1..])
      else
        FlushLoop(w, order[1..], io[1..])
  }

  lemma FlushOneShape(w: World, k: Key, io: DirectIO)
    requires Sane(w) && Known(w, k) && k in w.table
    ensures var v := FlushOne(w, k, io); SameShape(w, v) && Sane(v)
  {
    AssembleArticleLocal(w.files[k.file], k.index, w.table[k], io);
  }

  /** The article's data can be loaded, or it left the cache and the article is marked as on disk. */
  predicate Stored(w: World, k: Key, data: Bytes) {
    Known(w, k) && (Lookup(w, k) == Some(data) || (Lookup(w, k).None? && ArticleOf(w, k).onDisk))
  }

  /** The whole loop takes exactly the given articles out of memory, and touches nothing else that can be loaded. */
  lemma {:induction false} FlushLoopKeeps(w: World, order: seq<Key>, io: seq<DirectIO>)
    requires |io| == |order| && MapOk(w) && AllKnown(w, order)
    ensures var v := FlushLoop(w, order, io);
      && MapOk(v) && SameShape(w, v) && v.size == w.size && v.limit == w.limit
      && (forall k :: k in v.table <==> k in w.table && k !in order)
      && (forall k :: Known(w, k) && k !in order ==> Lookup(v, k) == Lookup(w, k))
    decreases |order|
  {
    if order != [] {
      var k := order[0];
      assert Known(w, k);
      if k in w.table {
        var w1 := FlushOne(w, k, io[0]);
        FlushOneMoves(w, k, io[0]);
        AllKnownRest(w, w1, order);
        FlushLoopKeeps(w1, order[1..], io[1..]);
        forall j | Known(w, j) && j !in order ensures Lookup(w1, j) == Lookup(w, j) {
          assert Untouched(w, w1, j);
        }
      } else {
        FlushLoopKeeps(w, order[1..], io[1..]);
      }
    }
  }

  /** It loses nothing, and takes back no mark. */
  lemma {:induction false} FlushLoopStored(w: World, order: seq<Key>, io: seq<DirectIO>, k: Key, data: Bytes)
    requires |io| == |order| && MapOk(w) && AllKnown(w, order) && Stored(w, k, data)
    ensures Stored(FlushLoop(w, order, io), k, data)
    ensures ArticleOf(w, k).onDisk ==> ArticleOf(FlushLoop(w, order, io), k).onDisk
    decreases |order|
  {
    if order != [] {
      var first := order[0];
      assert Known(w, first);
      if first in w.table {
        var w1 := FlushOne(w, first, io[0]);
        FlushOneMoves(w, first, io[0]);
        AllKnownRest(w, w1, order);
        assert k != first ==> Untouched(w, w1, k);
        FlushLoopStored(w1, order[1..], io[1..], k, data);
      } else {
        FlushLoopStored(w, order[1..], io[1..], k, data);
      }
    }
  }

  lemma {:induction false} FlushLoopSafe(w: World, order: seq<Key>, io: seq<DirectIO>, k: Key, data: Bytes)
    requires |io| == |order| && MapOk(w) && AllKnown(w, order) && Safe(w, k, data) && Unclaimed(w, k, data)
    ensures Safe(FlushLoop(w, order, io), k, data)
    decreases |order|
  {
    if order != [] {
      assert Known(w, order[0]);
      if order[0] in w.table {
        FlushOneMoves(w, order[0], io[0]);
        assert AgreesInMemory(w, k, data, order[0]);
        FlushOneSafe(w, order[0], io[0], k, data);
        FlushOneUnclaimed(w, order[0], io[0], k, data);
        AllKnownRest(w, FlushOne(w, order[0], io[0]), order);
        FlushLoopSafe(FlushOne(w, order[0], io[0]), order[1..], io[1..], k, data);
      } else {
        FlushLoopSafe(w, order[1..], io[1..], k, data);
      }
    }
  }

  /** A full flush empties the memory, leaves the size exact, and loses nothing. What is loadable, or in its place in the
      target file, still is one of the two, if the articles in memory do not claim the same bytes of the file for other
      data. */
  lemma FullFlush(w: World, order: seq<Key>, io: seq<DirectIO>)
    requires MapOk(w) && |io| == |order| && AllKnown(w, order) && forall k :: k in order <==> k in w.table
    ensures var v := FlushLoop(w.(size := 0), order, io);
      && MapOk(v) && v.table == map[] && v.size == 0 && Drift(v) == 0 && v.limit == w.limit && SameShape(w, v)
      && (forall k, data :: Stored(w, k, data) ==> Stored(v, k, data))
      && (forall k, data :: Safe(w, k, data) && Unclaimed(w, k, data) ==> Safe(v, k, data))
      && (forall k :: Known(w, k) && k !in w.table ==> Lookup(v, k) == Lookup(w, k))
  {
    var u := w.(size := 0);
    forall k | Known(u, k) ensures Exclusive(u, k) {
      assert Exclusive(w, k);
    }
    assert AllKnown(u, order);
    FlushLoopKeeps(u, order, io);
    assert FlushLoop(u, order, io).table == map[];
    forall k, data | Stored(w, k, data) ensures Stored(FlushLoop(u, order, io), k, data) {
      FlushLoopStored(u, order, io, k, data);
    }
    forall k, data | Safe(w, k, data) && Unclaimed(w, k, data) ensures Safe(FlushLoop(u, order, io), k, data) {
      FlushLoopSafe(u, order, io, k, data);
    }
  }

  /** `purge_articles`. */
  function PurgeLoop(w: World, keys: seq<Key>): (v: World)
    requires AllKnown(w, keys)
    decreases |keys|
  {
    if keys == [] then w
    else
      assert Known(w, keys[0]);
      AllKnownRest(w, PurgeOne(w, keys[0]), keys);
      PurgeLoop(PurgeOne(w, keys[0]), keys[1..])
  }

  /** Purging removes everything of the given articles from memory and disk, and nothing else. */
  lemma {:induction false} PurgeRemovesExactly(w: World, keys: seq<Key>)
    requires MapOk(w) && AllKnown(w, keys)
    ensures var v := PurgeLoop(w, keys);
      && MapOk(v) && Drift(v) == Drift(w) && v.size <= w.size && v.limit == w.limit && SameShape(w, v)
      && forall k :: Known(w, k) ==>
          && ArticleOf(v, k).onDisk == ArticleOf(w, k).onDisk
          && Lookup(v, k) == if k in keys then None else Lookup(w, k)
    decreases |keys|
  {
    if keys != [] {
      var w1 := PurgeOne(w, keys[0]);
      assert Known(w, keys[0]);
      PurgeOneRemoves(w, keys[0]);
      AllKnownRest(w, w1, keys);
      PurgeRemovesExactly(w1, keys[1..]);
      var v := PurgeLoop(w, keys);
      forall k | Known(w, k)
        ensures ArticleOf(v, k).onDisk == ArticleOf(w, k).onDisk && Lookup(v, k) == if k in keys then None else Lookup(w, k)
      {
        assert k in keys <==> k == keys[0] || k in keys[1..];
        if k != keys[0] {
          assert Untouched(w, w1, k);
        }
      }
    }
  }

  /** Purging the articles a job has in `saved_articles` leaves nothing of the job in the cache. */
  lemma PurgingSavedPurgesAll(w: World, keys: seq<Key>, k: Key)
    requires MapOk(w) && Known(w, k) && AllKnown(w, keys)
    requires forall j :: j in keys <==> Known(w, j) && j.file == k.file && ArticleOf(w, j).saved
    ensures var v := PurgeLoop(w, keys); Known(v, k) && Lookup(v, k).None?
  {
    PurgeRemovesExactly(w, keys);
    assert Exclusive(w, k);
  }

  // ------------------------------------------------------------------------------------------------------- runs

  /** A call, or one turn of the loop of `assemble` in whatever pass. `flush_articles` holds no lock while it loops, so
      other calls come between its turns; those of `purge_articles` are purges of one article each. */
  datatype Op =
    | Save(k: Key, data: Bytes, env: SaveEnv)
    | Load(k: Key)
    | FlushBegin                           // flush_articles resets the size,
    | FlushTurn(k: Key, io: DirectIO)      // and takes one article after the other out of the table
    | Purge(keys: seq<Key>)
    | Limit(limit: int)
    | MarkOnDisk(k: Key)                   // register_article, of an article that failed
    | Turn(p: Pass, seen: Seen)

  /** Articles are saved afresh, and not for a finished job. */
  ghost predicate Legal(w: World, op: Op) {
    Sane(w) &&
    match op
    case Save(k, _, env) => Known(w, k) && Lookup(w, k).None? && !env.finished
    case Load(k) => Known(w, k)
    case FlushBegin => true
    case FlushTurn(k, _) => Known(w, k) && k in w.table
    case Purge(keys) => AllKnown(w, keys)
    case Limit(_) => true
    case MarkOnDisk(k) => Known(w, k)
    case Turn(p, _) => PassFits(w, p) && p.running
  }

  function Marked(w: World, k: Key): World
    requires Known(w, k)
  {
    WithArticle(w, k, ArticleOf(w, k).(onDisk := true))
  }

  ghost function Do(w: World, op: Op): World
    requires Legal(w, op)
  {
    match op
    case Save(k, data, env) => SaveArticle(w, k, data, env)
    case Load(k) => LoadArticle(w, k)
    case FlushBegin => w.(size := 0)
    case FlushTurn(k, io) => FlushOne(w, k, io)
    case Purge(keys) => PurgeLoop(w, keys)
    case Limit(limit) => NewLimit(w, limit)
    case MarkOnDisk(k) => Marked(w, k)
    case Turn(p, seen) => Iterate(w, p, seen).0
  }

  ghost predicate LegalRun(w: World, ops: seq<Op>)
    decreases |ops|
  {
    ops == [] || (Legal(w, ops[0]) && LegalRun(Do(w, ops[0]), ops[1..]))
  }

  ghost function DoAll(w: World, ops: seq<Op>): World
    requires LegalRun(w, ops)
    decreases |ops|
  {
    if ops == [] then w else DoAll(Do(w, ops[0]), ops[1..])
  }

  /** Whether a call is about the data of article k. */
  predicate Consumes(op: Op, k: Key) {
    match op
    case Save(j, _, _) => j == k
    case Load(j) => j == k
    case Purge(keys) => k in keys
    case FlushBegin => false
    case FlushTurn(_, _) => false
    case Limit(_) => false
    case MarkOnDisk(_) => false
    case Turn(_, _) => false
  }

  /** Whether a turn takes the data of article k. */
  ghost predicate Takes(w: World, op: Op, k: Key)
    requires Legal(w, op)
  {
    op.Turn? && Loads(w, op.p, op.seen) && k == Key(op.p.task.file, op.p.idx)
  }

  lemma MarkKeeps(w: World, k: Key)
    requires MapOk(w) && Known(w, k)
    ensures MapOk(Marked(w, k)) && Drift(Marked(w, k)) == Drift(w) && SameElsewhere(w, Marked(w, k), k) && Known(Marked(w, k), k)
    ensures ArticleOf(Marked(w, k), k) == ArticleOf(w, k).(onDisk := true)
  {
    assert Exclusive(w, k);
    OneArticleElsewhere(w, k, ArticleOf(w, k).(onDisk := true), Marked(w, k));
    ElsewhereKeeps(w, Marked(w, k), k);
  }

  lemma QuietTurnKeeps(w: World, p: Pass, seen: Seen)
    requires MapOk(w) && PassFits(w, p) && p.running && !Loads(w, p, seen)
    ensures var v := QuietIterate(w, p, seen).0;
      && MapOk(v) && Drift(v) == Drift(w) && v.limit == w.limit && v.size == w.size && SameShape(w, v)
      && forall k :: Known(w, k) ==> Untouched(w, v, k) && v.files[k.file].disk == w.files[k.file].disk
  {
    var v := QuietIterate(w, p, seen).0;
    QuietTurnTouches(w, p, seen);
    forall k | Known(v, k) ensures Exclusive(v, k) {
      assert Exclusive(w, k) && Untouched(w, v, k);
    }
  }

  lemma QuietTurnTouches(w: World, p: Pass, seen: Seen)
    requires PassFits(w, p) && p.running && !Loads(w, p, seen)
    ensures var v := QuietIterate(w, p, seen).0;
      && v == w.(files := v.files) && SameShape(w, v) && Sane(v)
      && forall k :: Known(w, k) ==> Untouched(w, v, k) && v.files[k.file].disk == w.files[k.file].disk
  {
    var f, v := w.files[p.task.file], QuietIterate(w, p, seen).0;
    assert v.files == w.files || v.files == w.files[p.task.file := f.(next := p.idx + 1)];
  }

  lemma LoadingTurnKeeps(w: World, p: Pass, seen: Seen)
    requires MapOk(w) && PassFits(w, p) && p.running && Loads(w, p, seen)
    ensures var v, k := LoadingIterate(w, p, seen).0, Key(p.task.file, p.idx);
      && MapOk(v) && Drift(v) == Drift(w) && v.limit == w.limit && v.size <= w.size && SameElsewhere(w, v, k)
  {
    var k := Key(p.task.file, p.idx);
    LoadRemoves(w, k);
    IterateGrows(w, p, seen);
    var w1, v := LoadArticle(w, k), LoadingIterate(w, p, seen).0;
    var found := Lookup(w, k);
    if found.Some? && found.value != [] {
      WriteLoadedMarks(w1.files[k.file], p, found.value, seen.sparseOk);
      forall j | Known(w1, j) && j != k ensures Untouched(w1, v, j) {
      }
      assert Exclusive(w1, k);
      ElsewhereKeeps(w1, v, k);
      ElsewhereTwice(w, w1, v, k);
    }
  }

  lemma BeginKeeps(w: World)
    requires MapOk(w)
    ensures MapOk(w.(size := 0))
  {
    forall k | Known(w.(size := 0), k) ensures Exclusive(w.(size := 0), k) {
      assert Exclusive(w, k);
    }
  }

  /** Every call keeps the cache a map, and keeps its accounting as exact as it was, but for a flush: that begins with a
      size of zero, and takes articles out of the table without taking their length off the size. No call but a save
      adds to the size, and a save only within the limit. */
  lemma OpKeeps(w: World, op: Op)
    requires MapOk(w) && Legal(w, op)
    ensures MapOk(Do(w, op))
    ensures op.FlushBegin? ==> Do(w, op).size == 0
    ensures op.FlushBegin? || Drift(Do(w, op)) == Drift(w) + if op.FlushTurn? then |w.table[op.k]| else 0
    ensures op.Limit? || Do(w, op).limit == w.limit
    ensures op.FlushBegin? || Do(w, op).size <= w.size || (op.Save? && Do(w, op).size <= w.limit)
  {
    match op
    case FlushBegin => BeginKeeps(w);
    case FlushTurn(k, io) => FlushOneMoves(w, k, io); TotalWithout(w.table, k);
    case Save(j, d, env) => SaveStores(w, j, d, env);
    case Load(j) => LoadRemoves(w, j);
    case Purge(keys) => PurgeRemovesExactly(w, keys);
    case Limit(limit) => NewLimitMoves(w, limit);
    case MarkOnDisk(k) => MarkKeeps(w, k);
    case Turn(p, seen) => if Loads(w, p, seen) { LoadingTurnKeeps(w, p, seen); } else { QuietTurnKeeps(w, p, seen); }
  }

  /** Every call keeps what it does not consume. */
  lemma OpKeepsStored(w: World, op: Op, k: Key, data: Bytes)
    requires MapOk(w) && Legal(w, op) && Stored(w, k, data) && !Consumes(op, k) && !Takes(w, op, k)
    ensures Stored(Do(w, op), k, data)
  {
    match op
    case Save(j, d, env) => SaveStores(w, j, d, env); assert Untouched(w, Do(w, op), k);
    case Load(j) => LoadRemoves(w, j); assert Untouched(w, Do(w, op), k);
    case FlushBegin =>
    case FlushTurn(j, io) => FlushOneMoves(w, j, io); assert j != k ==> Untouched(w, Do(w, op), k);
    case Purge(keys) => PurgeRemovesExactly(w, keys);
    case Limit(limit) => NewLimitMoves(w, limit);
    case MarkOnDisk(j) => MarkKeeps(w, j); assert j != k ==> Untouched(w, Do(w, op), k);
    case Turn(p, seen) =>
      if Loads(w, p, seen) { LoadingTurnKeeps(w, p, seen); } else { QuietTurnKeeps(w, p, seen); }
      assert Untouched(w, Do(w, op), k);
  }

  // ------------------------------------------------------------------------------------------ what every run keeps

  /** Where a turn writes what it takes: at the article's own offset, or at the append offset. */
  ghost function TurnAt(w: World, p: Pass, seen: Seen): nat
    requires PassFits(w, p) && p.running && Loads(w, p, seen)
  {
    var (f, q) := OpenForPass(LoadArticle(w, Key(p.task.file, p.idx)).files[p.task.file], p, seen.sparseOk);
    if q.directWrite && CanDirectWrite(f, q.idx) then f.table[q.idx].dataBegin else q.offset
  }

  /** What the call may write to the target file agrees with `data` in the place of article k. */
  ghost predicate Spares(w: World, op: Op, k: Key, data: Bytes)
    requires Legal(w, op)
  {
    Known(w, k) &&
    match op
    case Save(j, other, _) => j != k && j.file == k.file ==> Agree(BeginOf(w, k), data, BeginOf(w, j), other)
    case FlushTurn(j, _) => AgreesInMemory(w, k, data, j)
    case Turn(p, seen) =>
      Loads(w, p, seen) && p.task.file == k.file ==>
        Agree(BeginOf(w, k), data, TurnAt(w, p, seen), Lookup(w, Key(p.task.file, p.idx)).GetOr([]))
    case _ => true
  }

  lemma SaveSpares(w: World, j: Key, other: Bytes, env: SaveEnv, k: Key, data: Bytes)
    requires Known(w, j) && Known(w, k) && j != k && Sane(w) && WrittenTo(w, k, data)
    requires j.file == k.file ==> Agree(BeginOf(w, k), data, BeginOf(w, j), other)
    ensures var v := SaveArticle(w, j, other, env); Known(v, k) && WrittenTo(v, k, data)
  {
    var w1 := WithArticle(w, j, ArticleOf(w, j).(saved := true));
    assert ArticleOf(w1, k) == ArticleOf(w, k) && w1.files[k.file].disk == w.files[k.file].disk;
    FlushToDiskSpares(w1, j, other, env.io, k, data);
  }

  lemma WriteLoadedSpares(f: Nzf, p: Pass, other: Bytes, sparseOk: bool, at: nat, data: Bytes)
    requires p.idx < |f.table| && f.next <= |f.table| && data != [] && InPlace(f.disk, at, data)
    requires var (g, q) := OpenForPass(f, p, sparseOk);
      Agree(at, data, if q.directWrite && CanDirectWrite(g, q.idx) then g.table[q.idx].dataBegin else q.offset, other)
    ensures InPlace(WriteLoaded(f, p, other, sparseOk).0.disk, at, data)
  {
    var (g, q) := OpenForPass(f, p, sparseOk);
    assert g.disk == f.disk;
    WriteKeepsExactly(f.disk, at, data, if q.directWrite && CanDirectWrite(g, q.idx) then g.table[q.idx].dataBegin else q.offset, other);
  }

  lemma TurnSpares(w: World, p: Pass, seen: Seen, k: Key, data: Bytes)
    requires MapOk(w) && PassFits(w, p) && p.running && Loads(w, p, seen) && Known(w, k) && WrittenTo(w, k, data)
    requires Spares(w, Turn(p, seen), k, data)
    ensures var v := LoadingIterate(w, p, seen).0; Known(v, k) && WrittenTo(v, k, data)
  {
    var j := Key(p.task.file, p.idx);
    LoadingTurnKeeps(w, p, seen);
    LoadRemoves(w, j);
    assert Untouched(w, LoadingIterate(w, p, seen).0, k);
    var w1, found := LoadArticle(w, j), Lookup(w, j);
    if data != [] && found.Some? && found.value != [] && j.file == k.file {
      WriteLoadedSpares(w1.files[j.file], p, found.value, seen.sparseOk, BeginOf(w, k), data);
    }
  }

  lemma OtherOpSpares(w: World, op: Op, k: Key, data: Bytes)
    requires MapOk(w) && Legal(w, op) && Known(w, k) && WrittenTo(w, k, data) && (op.Load? || op.Limit? || op.MarkOnDisk? || op.FlushBegin?)
    ensures Known(Do(w, op), k) && WrittenTo(Do(w, op), k, data)
  {
  }

  lemma {:induction false} PurgeSpares(w: World, keys: seq<Key>, k: Key, data: Bytes)
    requires AllKnown(w, keys) && Known(w, k) && WrittenTo(w, k, data)
    ensures Known(PurgeLoop(w, keys), k) && WrittenTo(PurgeLoop(w, keys), k, data)
    decreases |keys|
  {
    if keys != [] {
      assert Known(w, keys[0]);
      AllKnownRest(w, PurgeOne(w, keys[0]), keys);
      PurgeSpares(PurgeOne(w, keys[0]), keys[1..], k, data);
    }
  }

  /** What a call can do to what is loadable for an article it is not about: nothing, but for a flush. */
  lemma OpKeepsLookup(w: World, op: Op, k: Key)
    requires MapOk(w) && Legal(w, op) && Known(w, k) && !Consumes(op, k) && !Takes(w, op, k) && !op.FlushTurn?
    ensures Known(Do(w, op), k) && Lookup(Do(w, op), k) == Lookup(w, k)
    ensures ArticleOf(w, k).onDisk ==> ArticleOf(Do(w, op), k).onDisk
  {
    match op
    case FlushBegin =>
    case Save(j, d, env) => SaveStores(w, j, d, env); assert Untouched(w, Do(w, op), k);
    case Load(j) => LoadRemoves(w, j); assert Untouched(w, Do(w, op), k);
    case Purge(keys) => PurgeRemovesExactly(w, keys);
    case Limit(limit) => NewLimitMoves(w, limit);
    case MarkOnDisk(j) => MarkKeeps(w, j); assert j != k ==> Untouched(w, Do(w, op), k);
    case Turn(p, seen) =>
      if Loads(w, p, seen) { LoadingTurnKeeps(w, p, seen); } else { QuietTurnKeeps(w, p, seen); }
      assert Untouched(w, Do(w, op), k);
  }

  /** Every call that agrees with what is in its place in the target file leaves it there. */
  lemma OpKeepsWritten(w: World, op: Op, k: Key, data: Bytes)
    requires MapOk(w) && Legal(w, op) && Known(w, k) && WrittenTo(w, k, data)
    requires !Consumes(op, k) && !op.FlushTurn? && Spares(w, op, k, data)
    ensures Known(Do(w, op), k) && WrittenTo(Do(w, op), k, data)
  {
    match op
    case Save(j, other, env) => SaveSpares(w, j, other, env, k, data);
    case Purge(keys) => PurgeSpares(w, keys, k, data);
    case Turn(p, seen) =>
      if Loads(w, p, seen) { TurnSpares(w, p, seen, k, data); } else { QuietTurnKeeps(w, p, seen); assert Untouched(w, Do(w, op), k); }
    case _ => OtherOpSpares(w, op, k, data);
  }

  lemma OpKeepsSafe(w: World, op: Op, k: Key, data: Bytes)
    requires MapOk(w) && Legal(w, op) && Safe(w, k, data) && !Consumes(op, k) && !Takes(w, op, k) && Spares(w, op, k, data)
    ensures Safe(Do(w, op), k, data)
  {
    if op.FlushTurn? {
      FlushOneSafe(w, op.k, op.io, k, data);
    } else {
      OpKeepsLookup(w, op, k);
      if Lookup(w, k).None? {
        OpKeepsWritten(w, op, k, data);
      }
    }
  }

  /** No call of the run is about article k, and no turn takes its data. */
  ghost predicate Untaken(w: World, ops: seq<Op>, k: Key)
    requires LegalRun(w, ops)
    decreases |ops|
  {
    ops == [] || (!Consumes(ops[0], k) && !Takes(w, ops[0], k) && Untaken(Do(w, ops[0]), ops[1..], k))
  }

  /** Whatever the run writes to the target file agrees with `data` in the place of article k. */
  ghost predicate SparedThroughout(w: World, ops: seq<Op>, k: Key, data: Bytes)
    requires LegalRun(w, ops)
    decreases |ops|
  {
    ops == [] || (Spares(w, ops[0], k, data) && SparedThroughout(Do(w, ops[0]), ops[1..], k, data))
  }

  /** On every run of cache and assembler, what is saved for an article is what a later load returns, whatever flushes,
      limit changes, marks, passes and work on other articles come between, unless a direct write has put it into the
      target file; and there it stays in its place, if no article written later claims the same bytes for other data. */
  lemma {:induction false} SavedIsLoaded(w: World, ops: seq<Op>, k: Key, data: Bytes)
    requires MapOk(w) && LegalRun(w, ops) && Stored(w, k, data) && Untaken(w, ops, k)
    ensures MapOk(DoAll(w, ops)) && Stored(DoAll(w, ops), k, data)
    ensures Safe(w, k, data) && SparedThroughout(w, ops, k, data) ==> Safe(DoAll(w, ops), k, data)
    decreases |ops|
  {
    StoredThroughout(w, ops, k, data);
    if ops != [] && Safe(w, k, data) && SparedThroughout(w, ops, k, data) {
      OpKeeps(w, ops[0]);
      OpKeepsSafe(w, ops[0], k, data);
      SavedIsLoaded(Do(w, ops[0]), ops[1..], k, data);
    }
  }

  lemma {:induction false} StoredThroughout(w: World, ops: seq<Op>, k: Key, data: Bytes)
    requires MapOk(w) && LegalRun(w, ops) && Stored(w, k, data) && Untaken(w, ops, k)
    ensures MapOk(DoAll(w, ops)) && Stored(DoAll(w, ops), k, data)
    decreases |ops|
  {
    if ops != [] {
      OpKeeps(w, ops[0]);
      OpKeepsStored(w, ops[0], k, data);
      StoredThroughout(Do(w, ops[0]), ops[1..], k, data);
    }
  }

  /** On every run without a limit change the size is within the limit, or has not grown since a lowered limit stopped
      fitting; without a flush it stays as exact as it was, and then so is the usage. */
  lemma {:induction false} UsageStaysWithinLimit(w: World, ops: seq<Op>)
    requires MapOk(w) && LegalRun(w, ops) && 0 <= w.limit && forall i :: 0 <= i < |ops| ==> !ops[i].Limit?
    ensures var v := DoAll(w, ops); MapOk(v) && v.limit == w.limit && (v.size <= w.limit || v.size <= w.size)
    ensures (forall i :: 0 <= i < |ops| ==> !ops[i].FlushBegin? && !ops[i].FlushTurn?) ==> Drift(DoAll(w, ops)) == Drift(w)
    decreases |ops|
  {
    if ops == [] {
    } else {
      assert !ops[0].Limit?;
      OpKeeps(w, ops[0]);
      UsageStaysWithinLimit(Do(w, ops[0]), ops[1..]);
    }
  }

  // ------------------------------------------------------------------------------------------------- marked data

  lemma OpKeepsMark(w: World, op: Op, k: Key, data: Bytes)
    requires MapOk(w) && Legal(w, op) && Stored(w, k, data) && ArticleOf(w, k).onDisk && !Consumes(op, k)
    ensures Stored(Do(w, op), k, data) && ArticleOf(Do(w, op), k).onDisk
    ensures !op.FlushTurn? ==> Lookup(Do(w, op), k) == Lookup(w, k)
  {
    if op.FlushTurn? {
      FlushOneMoves(w, op.k, op.io);
      assert op.k != k ==> Untouched(w, Do(w, op), k);
    } else {
      OpKeepsLookup(w, op, k);
    }
  }

  predicate NoneConsumes(ops: seq<Op>, k: Key) {
    forall i :: 0 <= i < |ops| ==> !Consumes(ops[i], k)
  }

  /** Data of an article that is marked as on disk, as bad data is, is taken by no turn of any pass. On every run it stays
      loadable until it is saved, loaded or purged by name, or a flush writes it to its place in the target file. */
  lemma {:induction false} MarkedIsNeverTaken(w: World, ops: seq<Op>, k: Key, data: Bytes)
    requires MapOk(w) && LegalRun(w, ops) && Stored(w, k, data) && ArticleOf(w, k).onDisk && NoneConsumes(ops, k)
    ensures Untaken(w, ops, k) && Stored(DoAll(w, ops), k, data) && ArticleOf(DoAll(w, ops), k).onDisk
    ensures Safe(w, k, data) && SparedThroughout(w, ops, k, data) ==> Safe(DoAll(w, ops), k, data)
    ensures (forall i :: 0 <= i < |ops| ==> !ops[i].FlushTurn?) ==> Lookup(DoAll(w, ops), k) == Lookup(w, k)
    decreases |ops|
  {
    if ops == [] {
    } else {
      assert !Consumes(ops[0], k);
      OpKeeps(w, ops[0]);
      OpKeepsMark(w, ops[0], k, data);
      MarkedIsNeverTaken(Do(w, ops[0]), ops[1..], k, data);
      SavedIsLoaded(w, ops, k, data);
    }
  }
}
