/**
 What every interleaving of cache operations, direct writes and assembler iterations keeps, for files whose parts
 tile them and decode, and the file that comes out at the end.
 */
module Assembly {
  import opened Options
  import opened Storage

  /** The decoded parts of one file, in order. */
  type Parts = seq<Bytes>

  function Begin(parts: Parts, i: nat): nat
    requires i <= |parts|
  {
    if i == 0 then 0 else Begin(parts, i - 1) + |parts[i - 1]|
  }

  /** The first n parts one after the other; all of them are the file the poster cut up. */
  function Concat(parts: Parts, n: nat): Bytes
    requires n <= |parts|
  {
    if n == 0 then [] else Concat(parts, n - 1) + parts[n - 1]
  }

  predicate At(disk: Bytes, pos: nat, data: Bytes) {
    pos + |data| <= |disk| && disk[pos..pos + |data|] == data
  }

  /** Part i is where the file wants it. */
  predicate Placed(parts: Parts, i: nat, disk: Bytes)
    requires i < |parts|
  {
    At(disk, Begin(parts, i), parts[i])
  }

  lemma {:induction false} BeginBefore(parts: Parts, i: nat, j: nat)
    requires i < j <= |parts|
    ensures Begin(parts, i) + |parts[i]| <= Begin(parts, j)
  {
    if i + 1 < j {
      BeginBefore(parts, i, j - 1);
    }
  }

  lemma TakeTwice(disk: Bytes, pos: nat, data: Bytes)
    requires At(disk, pos, data)
    ensures disk[..pos + |data|] == disk[..pos] + data
  {
  }

  /** A file as long as its parts, with every part in its place, is their concatenation. */
  lemma {:induction false} PartsInPlace(parts: Parts, n: nat, disk: Bytes)
    requires n <= |parts|
    requires forall i :: 0 <= i < n ==> Placed(parts, i, disk)
    ensures Begin(parts, n) <= |disk| && disk[..Begin(parts, n)] == Concat(parts, n)
  {
    if n > 0 {
      PartsInPlace(parts, n - 1, disk);
      assert Placed(parts, n - 1, disk);
      TakeTwice(disk, Begin(parts, n - 1), parts[n - 1]);
    }
  }

  lemma PWritePlaces(disk: Bytes, pos: nat, data: Bytes)
    requires data != []
    ensures At(PWrite(disk, pos, data), pos, data)
    ensures |PWrite(disk, pos, data)| == if |disk| < pos + |data| then pos + |data| else |disk|
  {
  }

  lemma PWriteElsewhere(disk: Bytes, pos: nat, data: Bytes, at: nat, other: Bytes)
    requires At(disk, at, other)
    requires at + |other| <= pos || pos + |data| <= at
    ensures At(PWrite(disk, pos, data), at, other)
  {
    if data != [] {
      var grown := if |disk| < pos + |data| then disk + Zeros(pos + |data| - |disk|) else disk;
      assert grown[at..at + |other|] == disk[at..at + |other|];
      assert PWrite(disk, pos, data)[at..at + |other|] == grown[at..at + |other|];
    }
  }

  // -------------------------------------------------------------------------------------------- one file in order

  /** The decoder's header is that of part i. */
  predicate Tiled(a: Article, parts: Parts, i: nat)
    requires i < |parts|
  {
    && (a.decodedSize.Some? ==> a.decodedSize.value == |parts[i]|)
    && (a.dataSize > 0 ==>
      && a.decodedSize.Some? && a.dataSize == |parts[i]| && a.dataBegin == Begin(parts, i)
      && a.fileSize == Begin(parts, |parts|))
  }

  /** One article: on disk it is in its place; otherwise, once decoded, its data is in memory or in the admin
      folder, never in both, and registered in `saved_articles`. `inHand` is the one article whose data a caller
      holds at this moment. */
  predicate ArticleOk(a: Article, memory: Option<Bytes>, disk: Bytes, parts: Parts, i: nat, inHand: bool)
    requires i < |parts|
  {
    && Tiled(a, parts, i)
    && (a.onDisk ==>
      a.decodedSize.Some? && memory.None? && a.adminFile.None? && Placed(parts, i, disk))
    && (memory.Some? ==> memory.value == parts[i] && a.adminFile.None? && a.saved && a.decodedSize.Some?)
    && (a.adminFile.Some? ==> a.adminFile.value == parts[i] && a.artId && a.saved && a.decodedSize.Some?)
    && (inHand ==> !a.onDisk && memory.None? && a.adminFile.None? && a.decodedSize.Some?)
    && (a.decoded && !a.onDisk && !inHand ==> memory.Some? || a.adminFile.Some?)
  }

  function InMemory(table: map<Key, Bytes>, f: nat, i: nat): Option<Bytes> {
    if Key(f, i) in table then Some(table[Key(f, i)]) else None
  }

  predicate FileOk(f: Nzf, n: nat, table: map<Key, Bytes>, parts: Parts, hand: Option<nat>) {
    && |f.table| == |parts| && f.next <= |parts|
    && |f.disk| <= Begin(parts, |parts|)
    && (forall i :: 0 <= i < |parts| ==> parts[i] != [])
    && (forall i :: 0 <= i < f.next ==> f.table[i].onDisk)
    && (forall i :: 0 <= i < |parts| ==>
         ArticleOk(f.table[i], InMemory(table, n, i), f.disk, parts, i, hand == Some(i)))
  }

  lemma {:induction false} SumIsBegin(arts: seq<Article>, parts: Parts, from: nat, present: nat)
    requires from + |arts| <= |parts|
    requires forall i :: 0 <= i < |arts| ==>
      arts[i].onDisk && arts[i].decodedSize.Some? && Tiled(arts[i], parts, from + i)
    ensures SumDecoded(arts, Begin(parts, from), present) == Begin(parts, from + |arts|)
  {
    if arts != [] {
      assert arts[0].onDisk && Tiled(arts[0], parts, from + 0);
      SumIsBegin(arts[1..], parts, from + 1, present);
    }
  }

  /** Whichever way `contiguous_offset` computes it, it is where the next part belongs. */
  lemma OffsetIsBegin(f: Nzf, n: nat, table: map<Key, Bytes>, parts: Parts, hand: Option<nat>)
    requires FileOk(f, n, table, parts, hand)
    ensures ContiguousOffset(f) == Begin(parts, f.next)
  {
    forall i | 0 <= i < f.next
      ensures f.table[i].onDisk && f.table[i].decodedSize.Some? && Tiled(f.table[i], parts, i)
    {
      assert ArticleOk(f.table[i], InMemory(table, n, i), f.disk, parts, i, hand == Some(i));
    }
    if !(f.next > 0 && f.table[f.next - 1].dataSize > 0) {
      SumIsBegin(f.table[..f.next], parts, 0, |f.disk|);
    }
  }

  /** Opening keeps the file; making it sparse gives an empty one its final length. */
  lemma OpenKeeps(f: Nzf, n: nat, table: map<Key, Bytes>, parts: Parts, i: nat, direct: bool, sparseOk: bool)
    requires FileOk(f, n, table, parts, Some(i)) && i < |parts|
    requires direct ==> f.table[i].dataSize > 0
    ensures var (g, offset, d) := Open(f, direct, f.table[i].fileSize, sparseOk);
      && FileOk(g, n, table, parts, Some(i)) && offset == Begin(parts, f.next) && (d ==> direct)
      && g == f.(disk := g.disk)
  {
    OffsetIsBegin(f, n, table, parts, Some(i));
    var g := Open(f, direct, f.table[i].fileSize, sparseOk).0;
    assert Tiled(f.table[i], parts, i);
    forall j | 0 <= j < |parts|
      ensures ArticleOk(g.table[j], InMemory(table, n, j), g.disk, parts, j, Some(i) == Some(j))
    {
      assert ArticleOk(f.table[j], InMemory(table, n, j), f.disk, parts, j, Some(i) == Some(j));
    }
  }

  /** What is on disk of the other parts stays on disk. */
  lemma PartialWriteSpares(f: Nzf, n: nat, table: map<Key, Bytes>, parts: Parts, i: nat, len: nat, j: nat)
    requires FileOk(f, n, table, parts, Some(i)) && i < |parts| && j < |parts| && len <= |parts[i]|
    ensures ArticleOk(f.table[j], InMemory(table, n, j), PWrite(f.disk, Begin(parts, i), parts[i][..len]), parts, j, Some(i) == Some(j))
  {
    assert ArticleOk(f.table[j], InMemory(table, n, j), f.disk, parts, j, Some(i) == Some(j));
    if f.table[j].onDisk {
      if i < j { BeginBefore(parts, i, j); } else { BeginBefore(parts, j, i); }
      PWriteElsewhere(f.disk, Begin(parts, i), parts[i][..len], Begin(parts, j), parts[j]);
    }
  }

  /** Writing a prefix of the part in hand where it belongs disturbs no other part. */
  lemma PartialWriteKeeps(f: Nzf, n: nat, table: map<Key, Bytes>, parts: Parts, i: nat, len: nat)
    requires FileOk(f, n, table, parts, Some(i)) && i < |parts| && len <= |parts[i]|
    ensures FileOk(f.(disk := PWrite(f.disk, Begin(parts, i), parts[i][..len])), n, table, parts, Some(i))
  {
    var data := parts[i][..len];
    var g := f.(disk := PWrite(f.disk, Begin(parts, i), data));
    BeginBefore(parts, i, |parts|);
    if data != [] {
      PWritePlaces(f.disk, Begin(parts, i), data);
    }
    forall j | 0 <= j < |parts|
      ensures ArticleOk(g.table[j], InMemory(table, n, j), g.disk, parts, j, Some(i) == Some(j))
    {
      PartialWriteSpares(f, n, table, parts, i, len, j);
    }
  }

  /** Writing the part in hand where it belongs puts it on disk. */
  lemma WritePlaces(f: Nzf, n: nat, table: map<Key, Bytes>, parts: Parts, i: nat)
    requires FileOk(f, n, table, parts, Some(i)) && i < |parts|
    ensures FileOk(Write(f, i, parts[i], Begin(parts, i)), n, table, parts, None)
  {
    var g := Write(f, i, parts[i], Begin(parts, i));
    assert parts[i][..|parts[i]|] == parts[i];
    PartialWriteKeeps(f, n, table, parts, i, |parts[i]|);
    PWritePlaces(f.disk, Begin(parts, i), parts[i]);
    var h := f.(disk := g.disk);
    forall j | 0 <= j < |parts|
      ensures ArticleOk(g.table[j], InMemory(table, n, j), g.disk, parts, j, false)
    {
      assert ArticleOk(h.table[j], InMemory(table, n, j), h.disk, parts, j, Some(i) == Some(j));
    }
  }

  /** A direct write of the part in hand puts it in its place, or leaves it in hand. */
  lemma AssembleArticleKeeps(f: Nzf, n: nat, table: map<Key, Bytes>, parts: Parts, i: nat, io: DirectIO)
    requires FileOk(f, n, table, parts, Some(i)) && i < |parts|
    ensures var (g, written) := AssembleArticle(f, i, parts[i], io);
      FileOk(g, n, table, parts, if written then None else Some(i)) && (written ==> g.table[i].onDisk)
  {
    if CanDirectWrite(f, i) {
      OpenKeeps(f, n, table, parts, i, true, io.sparseOk);
      var (g, _, direct) := Open(f, true, f.table[i].fileSize, io.sparseOk);
      assert ArticleOk(g.table[i], InMemory(table, n, i), g.disk, parts, i, true);
      if direct {
        if io.failsAfter.Some? && io.failsAfter.value < |parts[i]| {
          PartialWriteKeeps(g, n, table, parts, i, io.failsAfter.value);
        } else {
          WritePlaces(g, n, table, parts, i);
        }
      }
    }
  }

  // ------------------------------------------------------------------------------------------- all files in order

  predicate TableOk(w: World) {
    forall k :: k in w.table ==> Known(w, k)
  }

  predicate WorldOk(w: World, parts: seq<Parts>, hand: Option<Key>) {
    && |w.files| == |parts| && TableOk(w)
    && (hand.Some? ==> Known(w, hand.value))
    && forall n :: 0 <= n < |parts| ==> FileOk(w.files[n], n, w.table, parts[n], HandOf(hand, n))
  }

  function HandOf(hand: Option<Key>, n: nat): Option<nat> {
    if hand.Some? && hand.value.file == n then Some(hand.value.index) else None
  }

  /** A step that replaces one file, and moves table entries of that file only. */
  lemma OneFileOk(w: World, v: World, parts: seq<Parts>, hand: Option<Key>, hand': Option<Key>, n: nat)
    requires WorldOk(w, parts, hand) && n < |parts| == |v.files| && TableOk(v)
    requires forall m :: 0 <= m < |parts| && m != n ==>
      v.files[m] == w.files[m] && HandOf(hand', m) == HandOf(hand, m)
    requires forall k: Key :: k.file != n ==> (k in v.table <==> k in w.table) && (k in w.table ==> v.table[k] == w.table[k])
    requires hand'.Some? ==> Known(v, hand'.value)
    requires FileOk(v.files[n], n, v.table, parts[n], HandOf(hand', n))
    ensures WorldOk(v, parts, hand')
  {
    forall m | 0 <= m < |parts| ensures FileOk(v.files[m], m, v.table, parts[m], HandOf(hand', m)) {
      assert FileOk(w.files[m], m, w.table, parts[m], HandOf(hand, m));
      if m != n {
        forall i | 0 <= i < |parts[m]|
          ensures ArticleOk(v.files[m].table[i], InMemory(v.table, m, i), v.files[m].disk, parts[m], i,
                            HandOf(hand', m) == Some(i))
        {
          assert Key(m, i).file != n;
          assert InMemory(v.table, m, i) == InMemory(w.table, m, i);
        }
      }
    }
  }

  /** The data in hand goes to its place on disk or to the admin folder. */
  lemma FlushToDiskKeeps(w: World, parts: seq<Parts>, k: Key, io: DirectIO)
    requires WorldOk(w, parts, Some(k)) && ArticleOf(w, k).saved
    ensures Sane(w) && WorldOk(FlushToDisk(w, k, parts[k.file][k.index], io), parts, None)
  {
    var n, i, data := k.file, k.index, parts[k.file][k.index];
    assert FileOk(w.files[n], n, w.table, parts[n], Some(i));
    forall m | 0 <= m < |w.files| ensures w.files[m].next <= |w.files[m].table| {
      assert FileOk(w.files[m], m, w.table, parts[m], HandOf(Some(k), m));
    }
    var v := FlushToDisk(w, k, data, io);
    AssembleArticleKeeps(w.files[n], n, w.table, parts[n], i, io);
    AssembleArticleGrows(w.files[n], i, data, io);
    AssembleArticleFrame(w.files[n], i, data, io);
    var (g, written) := if w.directWrite then AssembleArticle(w.files[n], i, data, io) else (w.files[n], false);
    forall j | 0 <= j < |parts[n]|
      ensures ArticleOk(v.files[n].table[j], InMemory(v.table, n, j), v.files[n].disk, parts[n], j, false)
    {
      assert ArticleOk(g.table[j], InMemory(w.table, n, j), g.disk, parts[n], j, !written && j == i);
      if written && j == i {
        assert g.table[i].onDisk;
      }
    }
    OneFileOk(w, v, parts, Some(k), None, n);
  }

  lemma AssembleArticleFrame(f: Nzf, i: nat, data: Bytes, io: DirectIO)
    requires i < |f.table| && f.next <= |f.table|
    ensures AssembleArticle(f, i, data, io).0.table[i].saved == f.table[i].saved
  {
  }

  /** The article's data is nowhere yet. */
  predicate Afresh(w: World, k: Key)
    requires Known(w, k)
  {
    k !in w.table && ArticleOf(w, k).adminFile.None? && !ArticleOf(w, k).onDisk && !ArticleOf(w, k).decoded
  }

  /** Removing the data of an article from wherever the cache holds it puts it in the caller's hand. */
  lemma TakeInHand(w: World, parts: seq<Parts>, k: Key, b: Article, v: World)
    requires WorldOk(w, parts, None) && Known(w, k)
    requires v == WithArticle(w, k, b).(table := w.table - {k}, size := v.size)
    requires var a := ArticleOf(w, k);
      b == a.(saved := b.saved, adminFile := None) && !a.onDisk && a.decodedSize.Some?
    ensures WorldOk(v, parts, Some(k))
  {
    var n := k.file;
    assert FileOk(w.files[n], n, w.table, parts[n], None);
    forall j | 0 <= j < |parts[n]|
      ensures ArticleOk(v.files[n].table[j], InMemory(v.table, n, j), v.files[n].disk, parts[n], j, Some(k.index) == Some(j))
    {
      assert ArticleOk(w.files[n].table[j], InMemory(w.table, n, j), w.files[n].disk, parts[n], j, false);
    }
    OneFileOk(w, v, parts, None, Some(k), n);
  }

  /** Saving a part keeps everything in order, wherever its data goes. */
  lemma SaveKeeps(w: World, parts: seq<Parts>, k: Key, env: SaveEnv)
    requires WorldOk(w, parts, None) && Known(w, k) && Afresh(w, k) && ArticleOf(w, k).decodedSize.Some?
    ensures Sane(w) && WorldOk(SaveArticle(w, k, parts[k.file][k.index], env), parts, None)
  {
    var n, data := k.file, parts[k.file][k.index];
    WorldSane(w, parts, None);
    if !env.finished {
      var w1 := WithArticle(w, k, ArticleOf(w, k).(saved := true));
      assert w1.table == w1.table - {k};
      TakeInHand(w, parts, k, ArticleOf(w1, k), w1);
      var v := SaveArticle(w, k, data, env);
      if (ArticleOf(w, k).lowestPartnum && !env.named) || !FitsInMemory(w1, data) {
        FlushToDiskKeeps(w1, parts, k, env.io);
      } else {
        assert FileOk(w1.files[n], n, w1.table, parts[n], Some(k.index));
        forall j | 0 <= j < |parts[n]|
          ensures ArticleOk(v.files[n].table[j], InMemory(v.table, n, j), v.files[n].disk, parts[n], j, false)
        {
          assert ArticleOk(w1.files[n].table[j], InMemory(w1.table, n, j), w1.files[n].disk, parts[n], j, k.index == j);
        }
        OneFileOk(w1, v, parts, Some(k), None, n);
      }
    }
  }

  lemma WorldSane(w: World, parts: seq<Parts>, hand: Option<Key>)
    requires WorldOk(w, parts, hand)
    ensures Sane(w)
  {
    forall m | 0 <= m < |w.files| ensures w.files[m].next <= |w.files[m].table| {
      assert FileOk(w.files[m], m, w.table, parts[m], HandOf(hand, m));
    }
  }

  /** Flushing one article out of memory keeps everything in order. */
  lemma FlushOneKeeps(w: World, parts: seq<Parts>, k: Key, io: DirectIO)
    requires WorldOk(w, parts, None) && k in w.table
    ensures Known(w, k) && Sane(w) && WorldOk(FlushOne(w, k, io), parts, None)
  {
    WorldSane(w, parts, None);
    var w1 := w.(table := w.table - {k});
    assert FileOk(w.files[k.file], k.file, w.table, parts[k.file], None);
    assert ArticleOk(ArticleOf(w, k), InMemory(w.table, k.file, k.index), w.files[k.file].disk, parts[k.file], k.index, false);
    assert w.files[k.file].table[k.index := ArticleOf(w, k)] == w.files[k.file].table;
    assert WithArticle(w, k, ArticleOf(w, k)).files == w.files;
    TakeInHand(w, parts, k, ArticleOf(w, k), w1);
    FlushToDiskKeeps(w1, parts, k, io);
  }

  /** A decoded part that is not on disk is found, exactly as decoded, and is then in the caller's hand only. */
  lemma LoadFinds(w: World, parts: seq<Parts>, k: Key)
    requires WorldOk(w, parts, None) && Known(w, k)
    requires ArticleOf(w, k).decoded && !ArticleOf(w, k).onDisk
    ensures Lookup(w, k) == Some(parts[k.file][k.index]) && parts[k.file][k.index] != []
    ensures WorldOk(LoadArticle(w, k), parts, Some(k))
  {
    assert FileOk(w.files[k.file], k.file, w.table, parts[k.file], None);
    assert ArticleOk(ArticleOf(w, k), InMemory(w.table, k.file, k.index), w.files[k.file].disk, parts[k.file], k.index, false);
    var v := LoadArticle(w, k);
    assert v.table == w.table - {k};
    TakeInHand(w, parts, k, ArticleOf(v, k), v);
  }

  // ------------------------------------------------------------------------------------------------ one pass

  /** The local variables of a pass agree with the file: as long as nothing was skipped the pass is not ahead of
      `assembler_next_index`, and its append offset is where the next part belongs. */
  predicate PassOk(w: World, p: Pass, parts: seq<Parts>) {
    && p.task.file < |w.files| == |parts| && p.idx <= |parts[p.task.file]| == |w.files[p.task.file].table|
    && (!p.skipped ==>
      p.idx <= w.files[p.task.file].next && (p.isOpen ==> p.offset == Begin(parts[p.task.file], p.idx)))
    && (p.skipped ==> p.task.allowNonContiguous && !p.task.fileDone)
    && (p.isOpen && p.task.allowNonContiguous ==> p.directWrite)
    && (p.task.fileDone ==> AllDecoded(w.files[p.task.file]))
  }

  predicate AllDecoded(f: Nzf) {
    forall i :: 0 <= i < |f.table| ==> f.table[i].decoded || f.table[i].onDisk
  }

  /** The iteration does not leave through one of the two `break`s that drop data. */
  predicate Lossless(w: World, p: Pass, seen: Seen)
    requires PassFits(w, p) && p.running
  {
    Loads(w, p, seen) ==>
      var f := w.files[p.task.file];
      var (f1, p1) := OpenForPass(f, p, seen.sparseOk);
      !DropsData(f1, p, p1)
  }

  /** Moving `assembler_next_index` over an article that is on disk. */
  lemma StepOverKeeps(f: Nzf, n: nat, table: map<Key, Bytes>, parts: Parts)
    requires FileOk(f, n, table, parts, None) && f.next < |parts| && f.table[f.next].onDisk
    ensures FileOk(f.(next := f.next + 1), n, table, parts, None)
  {
    var g := f.(next := f.next + 1);
    forall j | 0 <= j < |parts| ensures ArticleOk(g.table[j], InMemory(table, n, j), g.disk, parts, j, false) {
      assert ArticleOk(f.table[j], InMemory(table, n, j), f.disk, parts, j, false);
    }
  }

  lemma QuietKeepsWorld(w: World, parts: seq<Parts>, p: Pass, seen: Seen)
    requires WorldOk(w, parts, None) && PassOk(w, p, parts) && p.running && PassFits(w, p) && !Loads(w, p, seen)
    ensures WorldOk(QuietIterate(w, p, seen).0, parts, None)
  {
    var n := p.task.file;
    var f := w.files[n];
    var v := QuietIterate(w, p, seen).0;
    if v.files[n] == f {
      assert v.files == w.files;
    } else {
      StepOverKeeps(f, n, w.table, parts[n]);
      OneFileOk(w, v, parts, None, None, n);
    }
  }

  lemma QuietKeepsPass(w: World, parts: seq<Parts>, p: Pass, seen: Seen)
    requires WorldOk(w, parts, None) && PassOk(w, p, parts) && p.running && PassFits(w, p) && !Loads(w, p, seen)
    ensures var (v, q) := QuietIterate(w, p, seen); PassOk(v, q, parts)
  {
    var n := p.task.file;
    var f := w.files[n];
    assert FileOk(f, n, w.table, parts[n], None);
    if p.idx < |f.table| {
      assert ArticleOk(f.table[p.idx], InMemory(w.table, n, p.idx), f.disk, parts[n], p.idx, false);
      assert Tiled(f.table[p.idx], parts[n], p.idx);
    }
    QuietIterateGrows(w, p, seen);
    StaysDecoded(w, QuietIterate(w, p, seen).0, n);
  }

  lemma OpenForPassKeeps(f: Nzf, n: nat, table: map<Key, Bytes>, parts: Parts, p: Pass, sparseOk: bool)
    requires FileOk(f, n, table, parts, Some(p.idx)) && p.idx < |parts|
    requires !p.skipped ==> p.idx <= f.next && (p.isOpen ==> p.offset == Begin(parts, p.idx))
    ensures var (f1, p1) := OpenForPass(f, p, sparseOk);
      && FileOk(f1, n, table, parts, Some(p.idx)) && f1.next == f.next
      && p1 == p.(isOpen := true, offset := p1.offset, directWrite := p1.directWrite)
      && (!p.skipped ==> p1.offset == Begin(parts, p.idx) && f.next == p.idx)
      && (p.isOpen ==> p1 == p)
  {
    var i := p.idx;
    if !p.isOpen {
      OpenKeeps(f, n, table, parts, i, p.directWrite && CanDirectWrite(f, i), sparseOk);
    }
    assert ArticleOk(f.table[i], InMemory(table, n, i), f.disk, parts, i, true);
  }

  /** An iteration that holds the next part writes it where it belongs, directly or by appending. */
  lemma WriteOpenedKeeps(f: Nzf, n: nat, table: map<Key, Bytes>, parts: Parts, p: Pass)
    requires FileOk(f, n, table, parts, Some(p.idx)) && p.idx < |parts|
    requires (p.directWrite && CanDirectWrite(f, p.idx)) || p.offset == Begin(parts, p.idx)
    ensures var (g, q) := WriteOpened(f, p, parts[p.idx]);
      FileOk(g, n, table, parts, None) && (f.next == p.idx ==> g.next == p.idx + 1)
  {
    assert ArticleOk(f.table[p.idx], InMemory(table, n, p.idx), f.disk, parts, p.idx, true);
    assert Tiled(f.table[p.idx], parts, p.idx);
    WritePlaces(f, n, table, parts, p.idx);
  }

  lemma WriteLoadedKeeps(f: Nzf, n: nat, table: map<Key, Bytes>, parts: Parts, p: Pass, sparseOk: bool)
    requires FileOk(f, n, table, parts, Some(p.idx)) && p.idx < |parts|
    requires !p.skipped ==> p.idx <= f.next && (p.isOpen ==> p.offset == Begin(parts, p.idx))
    requires p.isOpen && p.task.allowNonContiguous ==> p.directWrite
    requires p.skipped ==> p.task.allowNonContiguous && !p.task.fileDone
    requires var (f1, p1) := OpenForPass(f, p, sparseOk); !DropsData(f1, p, p1)
    ensures var (g, q) := WriteLoaded(f, p, parts[p.idx], sparseOk);
      && FileOk(g, n, table, parts, None)
      && q.idx == p.idx + 1 && q.skipped == p.skipped && q.task == p.task && q.running == p.running
      && (!q.skipped ==> q.idx <= g.next && q.offset == Begin(parts, q.idx))
      && (q.isOpen && q.task.allowNonContiguous ==> q.directWrite)
  {
    var i := p.idx;
    OpenForPassKeeps(f, n, table, parts, p, sparseOk);
    var (f1, p1) := OpenForPass(f, p, sparseOk);
    WriteOpenedKeeps(f1, n, table, parts, p1);
  }

  /** The file part of an iteration that loads. */
  lemma LoadingKeepsFile(w: World, parts: seq<Parts>, p: Pass, seen: Seen)
    requires WorldOk(w, parts, None) && PassOk(w, p, parts) && p.running && PassFits(w, p) && Loads(w, p, seen)
    requires Lossless(w, p, seen)
    ensures var n, w1 := p.task.file, LoadArticle(w, Key(p.task.file, p.idx));
      var (g, q) := WriteLoaded(w1.files[n], p, parts[n][p.idx], seen.sparseOk);
      && LoadingIterate(w, p, seen) == (w1.(files := w1.files[n := g]), q)
      && WorldOk(w1, parts, Some(Key(n, p.idx)))
      && FileOk(g, n, w1.table, parts[n], None)
      && q.idx == p.idx + 1 && q.skipped == p.skipped && q.task == p.task && q.running
      && (!q.skipped ==> q.idx <= g.next && q.offset == Begin(parts[n], q.idx))
      && (q.isOpen && q.task.allowNonContiguous ==> q.directWrite)
  {
    var n, k := p.task.file, Key(p.task.file, p.idx);
    LoadFinds(w, parts, k);
    var w1 := LoadArticle(w, k);
    assert FileOk(w1.files[n], n, w1.table, parts[n], Some(p.idx));
    assert SameButSaved(w.files[n], w1.files[n], p.idx);
    OpenIgnoresSaved(w.files[n], w1.files[n], p, seen.sparseOk);
    WriteLoadedKeeps(w1.files[n], n, w1.table, parts[n], p, seen.sparseOk);
  }

  lemma LoadingKeeps(w: World, parts: seq<Parts>, p: Pass, seen: Seen)
    requires WorldOk(w, parts, None) && PassOk(w, p, parts) && p.running && PassFits(w, p) && Loads(w, p, seen)
    requires Lossless(w, p, seen)
    ensures var (v, q) := LoadingIterate(w, p, seen);
      WorldOk(v, parts, None) && PassOk(v, q, parts) && q.running && q.skipped == p.skipped && q.idx == p.idx + 1
  {
    var n := p.task.file;
    var w1 := LoadArticle(w, Key(n, p.idx));
    LoadingKeepsFile(w, parts, p, seen);
    var (v, q) := LoadingIterate(w, p, seen);
    OneFileOk(w1, v, parts, Some(Key(n, p.idx)), None, n);
    LoadingIterateGrows(w, p, seen);
    StaysDecoded(w, v, n);
  }

  lemma StaysDecoded(w: World, v: World, n: nat)
    requires Grows(w, v) && n < |w.files|
    ensures AllDecoded(w.files[n]) ==> AllDecoded(v.files[n])
  {
    assert FileGrows(w.files[n], v.files[n]);
    forall j | 0 <= j < |w.files[n].table| && (w.files[n].table[j].decoded || w.files[n].table[j].onDisk)
      ensures v.files[n].table[j].decoded || v.files[n].table[j].onDisk
    {
      assert ArticleGrows(w.files[n].table[j], v.files[n].table[j]);
    }
  }

  /** Taking an article's data from the cache changes nothing that opening the file looks at. */
  predicate SameButSaved(f: Nzf, g: Nzf, i: nat) {
    && i < |f.table| && f.next <= |f.table|
    && g == f.(table := g.table) && |g.table| == |f.table|
    && (forall j :: 0 <= j < |f.table| && j != i ==> g.table[j] == f.table[j])
    && g.table[i] == f.table[i].(saved := g.table[i].saved, adminFile := g.table[i].adminFile)
  }

  lemma {:induction false} SumIgnoresSaved(a: seq<Article>, b: seq<Article>, offset: nat, present: nat)
    requires |a| == |b|
    requires forall i :: 0 <= i < |a| ==> b[i] == a[i].(saved := b[i].saved, adminFile := b[i].adminFile)
    ensures SumDecoded(a, offset, present) == SumDecoded(b, offset, present)
  {
    if a != [] && a[0].onDisk {
      if a[0].dataSize > 0 {
        SumIgnoresSaved(a[1..], b[1..], a[0].dataBegin + a[0].decodedSize.GetOr(0), present);
      } else if a[0].decodedSize.Some? {
        SumIgnoresSaved(a[1..], b[1..], offset + a[0].decodedSize.value, present);
      }
    }
  }

  lemma OpenIgnoresSaved(f: Nzf, g: Nzf, p: Pass, sparseOk: bool)
    requires p.idx < |f.table| && SameButSaved(f, g, p.idx)
    ensures var (f1, p1), (g1, q1) := OpenForPass(f, p, sparseOk), OpenForPass(g, p, sparseOk);
      p1 == q1 && SameButSaved(f1, g1, p.idx) && CanDirectWrite(f1, p.idx) == CanDirectWrite(g1, p.idx)
  {
    SumIgnoresSaved(f.table[..f.next], g.table[..g.next], 0, |f.disk|);
  }
}
