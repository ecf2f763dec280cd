/**
 What an uninterrupted pass of the assembler that may leave gaps writes, said of flags, table and file alone. Such a pass
 is begun to empty the cache: it writes whatever it can, and goes on behind what is missing.
 */
module GapPasses {
  import opened Options
  import opened Storage
  import opened Assembly
  import CacheMap

  /** Nothing stops the pass at this index: the file is not deleted, and the article was tried or the job is paused. */
  predicate Lets(seen: Seen) {
    !seen.deleted && (seen.tried || seen.paused)
  }

  /** The part, if it is decoded and still in the cache, can be written directly. */
  predicate Writable(f: Nzf, i: nat)
    requires i < |f.table|
  {
    f.table[i].decoded && !f.table[i].onDisk ==> f.table[i].dataSize > 0 && f.yenc && f.filepath
  }

  /** Nothing of this article is changed, in its record or in the cache. */
  predicate LeftAlone(w: World, v: World, k: Key) {
    Known(w, k) && CacheMap.Untouched(w, v, k)
  }

  /** The part is on disk at its offset, and gone from memory and admin folder. */
  predicate IsWritten(v: World, n: nat, i: nat, parts: Parts) {
    && i < |parts| && n < |v.files| && i < |v.files[n].table|
    && v.files[n].table[i].onDisk && v.files[n].table[i].adminFile.None? && Key(n, i) !in v.table
    && Begin(parts, i) + |parts[i]| <= |v.files[n].disk|
    && v.files[n].disk[Begin(parts, i)..Begin(parts, i) + |parts[i]|] == parts[i]
  }

  /** What becomes of article i: written if it was there to be written, or on disk already; else left alone. */
  predicate Met(w: World, v: World, n: nat, i: nat, parts: Parts)
    requires n < |w.files| && i < |w.files[n].table|
  {
    if w.files[n].table[i].decoded || w.files[n].table[i].onDisk then IsWritten(v, n, i, parts)
    else LeftAlone(w, v, Key(n, i))
  }

  ghost predicate OthersLeft(w: World, v: World, n: nat) {
    && |v.files| == |w.files| && (forall m :: 0 <= m < |w.files| && m != n ==> v.files[m] == w.files[m])
    && forall k: Key :: k.file != n ==> (k in v.table <==> k in w.table) && (k in w.table ==> v.table[k] == w.table[k])
  }

  ghost predicate GapPass(w: World, p: Pass, parts: seq<Parts>) {
    && WorldOk(w, parts, None) && PassOk(w, p, parts) && PassFits(w, p)
    && p.running && p.task.allowNonContiguous && !p.task.fileDone && p.directWrite
  }

  // ---------------------------------------------------------------------------------------------------- one turn

  lemma OpensDirectly(f: Nzf, n: nat, table: map<Key, Bytes>, parts: Parts, p: Pass, sparseOk: bool)
    requires FileOk(f, n, table, parts, None) && p.idx < |parts| && p.directWrite && sparseOk
    requires f.table[p.idx].dataSize > 0 && f.yenc && f.filepath
    ensures var (f1, p1) := OpenForPass(f, p, sparseOk);
      p1.directWrite && CanDirectWrite(f1, p.idx) && p1.task == p.task && p1.idx == p.idx && f1.table == f.table
  {
    assert ArticleOk(f.table[p.idx], InMemory(table, n, p.idx), f.disk, parts, p.idx, false);
    assert Tiled(f.table[p.idx], parts, p.idx);
    assert parts[p.idx] != [];
    BeginBefore(parts, p.idx, |parts|);
  }

  lemma LosesNothing(w: World, p: Pass, seen: Seen, parts: seq<Parts>)
    requires GapPass(w, p, parts) && p.idx < |parts[p.task.file]| && Loads(w, p, seen) && seen.sparseOk
    requires Writable(w.files[p.task.file], p.idx)
    ensures Lossless(w, p, seen)
  {
    var n := p.task.file;
    assert FileOk(w.files[n], n, w.table, parts[n], None);
    OpensDirectly(w.files[n], n, w.table, parts[n], p, seen.sparseOk);
  }

  /** In a world in order, what is on disk is written. */
  lemma OnDiskIsWritten(v: World, parts: seq<Parts>, n: nat, i: nat)
    requires WorldOk(v, parts, None) && n < |parts| && i < |parts[n]| && i < |v.files[n].table| && v.files[n].table[i].onDisk
    ensures IsWritten(v, n, i, parts[n])
  {
    assert FileOk(v.files[n], n, v.table, parts[n], None);
    assert ArticleOk(v.files[n].table[i], InMemory(v.table, n, i), v.files[n].disk, parts[n], i, false);
  }

  ghost predicate OnlyThis(w: World, v: World, n: nat, i: nat) {
    && n < |w.files| && OthersLeft(w, v, n) && |v.files[n].table| == |w.files[n].table|
    && v.files[n].yenc == w.files[n].yenc && v.files[n].filepath == w.files[n].filepath
    && forall j :: 0 <= j < |w.files[n].table| && j != i ==> LeftAlone(w, v, Key(n, j))
  }

  /** The file part of a turn that takes a part. */
  lemma LoadingFile(w: World, p: Pass, seen: Seen, parts: seq<Parts>)
    requires GapPass(w, p, parts) && p.idx < |parts[p.task.file]| && Loads(w, p, seen) && Lossless(w, p, seen)
    ensures var v, n, w1 := LoadingIterate(w, p, seen).0, p.task.file, LoadArticle(w, Key(p.task.file, p.idx));
      && v == w1.(files := w1.files[n := v.files[n]]) && n < |w1.files| && p.idx < |w1.files[n].table|
      && v.files[n].table == w1.files[n].table[p.idx := w1.files[n].table[p.idx].(onDisk := true)]
      && v.files[n].next == (if w.files[n].next == p.idx then p.idx + 1 else w.files[n].next)
      && v.files[n].yenc == w.files[n].yenc && v.files[n].filepath == w.files[n].filepath
  {
    var n, k := p.task.file, Key(p.task.file, p.idx);
    LoadFinds(w, parts, k);
    LoadingKeepsFile(w, parts, p, seen);
    var w1 := LoadArticle(w, k);
    assert FileOk(w.files[n], n, w.table, parts[n], None);
    OpenIgnoresSaved(w.files[n], w1.files[n], p, seen.sparseOk);
    WriteLoadedMarks(w1.files[n], p, parts[n][p.idx], seen.sparseOk);
    WriteLoadedGrows(w1.files[n], p, parts[n][p.idx], seen.sparseOk);
  }

  lemma LoadLeaves(w: World, k: Key)
    requires Known(w, k)
    ensures var v, n := LoadArticle(w, k), k.file;
      && |v.files| == |w.files| && (forall m :: 0 <= m < |w.files| && m != n ==> v.files[m] == w.files[m])
      && (forall j: Key :: j != k ==> (j in v.table <==> j in w.table) && (j in w.table ==> v.table[j] == w.table[j]))
      && |v.files[n].table| == |w.files[n].table|
      && forall j :: 0 <= j < |w.files[n].table| && j != k.index ==> v.files[n].table[j] == w.files[n].table[j]
  {
  }

  /** From the world before through the one in which the part is taken to the one in which it is written. */
  lemma OnlyThisAfter(w: World, w1: World, v: World, n: nat, i: nat)
    requires n < |w.files| == |w1.files| && i < |w.files[n].table|
    requires forall m :: 0 <= m < |w.files| && m != n ==> w1.files[m] == w.files[m]
    requires forall j: Key :: j != Key(n, i) ==> (j in w1.table <==> j in w.table) && (j in w.table ==> w1.table[j] == w.table[j])
    requires |w1.files[n].table| == |w.files[n].table|
    requires forall j :: 0 <= j < |w.files[n].table| && j != i ==> w1.files[n].table[j] == w.files[n].table[j]
    requires n < |v.files| && v == w1.(files := w1.files[n := v.files[n]])
    requires v.files[n].table == w1.files[n].table[i := w1.files[n].table[i].(onDisk := true)]
    requires v.files[n].yenc == w.files[n].yenc && v.files[n].filepath == w.files[n].filepath
    ensures OnlyThis(w, v, n, i) && v.files[n].table[i].onDisk
  {
    forall j | 0 <= j < |w.files[n].table| && j != i ensures LeftAlone(w, v, Key(n, j)) {
      assert Key(n, j) != Key(n, i);
    }
    forall k: Key | k.file != n ensures (k in v.table <==> k in w.table) && (k in w.table ==> v.table[k] == w.table[k]) {
      assert k != Key(n, i);
    }
  }

  lemma LoadingChanges(w: World, p: Pass, seen: Seen, parts: seq<Parts>)
    requires GapPass(w, p, parts) && p.idx < |parts[p.task.file]| && Loads(w, p, seen) && Lossless(w, p, seen)
    ensures var v, n := LoadingIterate(w, p, seen).0, p.task.file;
      && OnlyThis(w, v, n, p.idx) && v.files[n].table[p.idx].onDisk
      && v.files[n].next == if w.files[n].next == p.idx then p.idx + 1 else w.files[n].next
  {
    var k := Key(p.task.file, p.idx);
    LoadLeaves(w, k);
    LoadingFile(w, p, seen, parts);
    OnlyThisAfter(w, LoadArticle(w, k), LoadingIterate(w, p, seen).0, p.task.file, p.idx);
  }

  /** A turn that takes a part goes on writing directly. */
  lemma LoadingDirect(w: World, p: Pass, seen: Seen, parts: seq<Parts>)
    requires GapPass(w, p, parts) && p.idx < |parts[p.task.file]| && Loads(w, p, seen) && seen.sparseOk
    requires Writable(w.files[p.task.file], p.idx)
    ensures var q := LoadingIterate(w, p, seen).1; q.directWrite && q.task == p.task
  {
    var n, k := p.task.file, Key(p.task.file, p.idx);
    LosesNothing(w, p, seen, parts);
    LoadingKeepsFile(w, parts, p, seen);
    var w1 := LoadArticle(w, k);
    assert FileOk(w.files[n], n, w.table, parts[n], None);
    OpensDirectly(w.files[n], n, w.table, parts[n], p, seen.sparseOk);
    OpenIgnoresSaved(w.files[n], w1.files[n], p, seen.sparseOk);
  }

  ghost predicate TurnsTo(w: World, p: Pass, v: World, q: Pass, parts: seq<Parts>)
    requires p.task.file < |w.files| && p.idx < |w.files[p.task.file].table|
  {
    var n := p.task.file;
    && GapPass(v, q, parts) && q.task == p.task && q.idx == p.idx + 1 && OnlyThis(w, v, n, p.idx) && Met(w, v, n, p.idx, parts[n])
    && (p.skipped ==> q.skipped && v.files[n].next == w.files[n].next)
    && (!p.skipped && w.files[n].next == p.idx ==>
         if q.skipped then v.files[n].next == p.idx && !v.files[n].table[p.idx].onDisk else v.files[n].next == p.idx + 1)
  }

  lemma LoadingTurn(w: World, p: Pass, seen: Seen, parts: seq<Parts>)
    requires GapPass(w, p, parts) && p.idx < |parts[p.task.file]| && Loads(w, p, seen) && seen.sparseOk
    requires Writable(w.files[p.task.file], p.idx) && (p.skipped ==> w.files[p.task.file].next != p.idx)
    ensures var (v, q) := LoadingIterate(w, p, seen); TurnsTo(w, p, v, q, parts)
  {
    LosesNothing(w, p, seen, parts);
    LoadingKeeps(w, parts, p, seen);
    LoadingDirect(w, p, seen, parts);
    LoadingChanges(w, p, seen, parts);
    IterateGrows(w, p, seen);
    OnDiskIsWritten(LoadingIterate(w, p, seen).0, parts, p.task.file, p.idx);
  }

  lemma QuietTurn(w: World, p: Pass, seen: Seen, parts: seq<Parts>)
    requires GapPass(w, p, parts) && p.idx < |parts[p.task.file]| && !Loads(w, p, seen) && Lets(seen)
    requires p.skipped ==> w.files[p.task.file].next != p.idx
    ensures var (v, q) := QuietIterate(w, p, seen); TurnsTo(w, p, v, q, parts)
  {
    var n := p.task.file;
    QuietKeepsWorld(w, parts, p, seen);
    QuietKeepsPass(w, parts, p, seen);
    IterateGrows(w, p, seen);
    CacheMap.QuietTurnTouches(w, p, seen);
    var v := QuietIterate(w, p, seen).0;
    forall j | 0 <= j < |w.files[n].table| ensures LeftAlone(w, v, Key(n, j)) {
      assert Known(w, Key(n, j));
    }
    if v.files[n].table[p.idx].onDisk {
      OnDiskIsWritten(v, parts, n, p.idx);
    }
  }

  lemma Turn(w: World, p: Pass, seen: Seen, parts: seq<Parts>)
    requires GapPass(w, p, parts) && p.idx < |parts[p.task.file]| && Lets(seen) && seen.sparseOk
    requires Writable(w.files[p.task.file], p.idx) && (p.skipped ==> w.files[p.task.file].next != p.idx)
    ensures var (v, q) := Iterate(w, p, seen); TurnsTo(w, p, v, q, parts)
  {
    if Loads(w, p, seen) {
      LoadingTurn(w, p, seen, parts);
    } else {
      QuietTurn(w, p, seen, parts);
    }
  }

  // --------------------------------------------------------------------------------------------------- whole passes

  lemma LeftTwice(u: World, v: World, w: World, k: Key)
    requires LeftAlone(u, v, k) && LeftAlone(v, w, k)
    ensures LeftAlone(u, w, k)
  {
  }

  /** What the rest of a pass does, up to but without index m. */
  ghost predicate PassedTo(w: World, p: Pass, v: World, q: Pass, m: nat, parts: seq<Parts>)
    requires p.task.file < |w.files| && p.task.file < |parts|
  {
    var n := p.task.file;
    && WorldOk(v, parts, None) && q.idx == m && OthersLeft(w, v, n) && |v.files[n].table| == |w.files[n].table|
    && (forall i :: p.idx <= i < m && i < |w.files[n].table| ==> Met(w, v, n, i, parts[n]))
    && (forall i :: 0 <= i < |w.files[n].table| && !(p.idx <= i < m) ==> LeftAlone(w, v, Key(n, i)))
    && (p.skipped ==> v.files[n].next == w.files[n].next)
    && (!p.skipped && w.files[n].next == p.idx ==>
         v.files[n].next <= m && (v.files[n].next < m ==> v.files[n].next < |v.files[n].table| && !v.files[n].table[v.files[n].next].onDisk))
  }

  /** The pass is let on up to index m, and can write every part that it finds on the way. */
  predicate LetTo(w: World, p: Pass, seen: seq<Seen>, m: nat)
    requires p.task.file < |w.files|
  {
    var f := w.files[p.task.file];
    && |seen| == |f.table| && p.idx <= m <= |f.table| && (m < |f.table| ==> !Lets(seen[m]))
    && forall i :: p.idx <= i < m ==> Lets(seen[i]) && seen[i].sparseOk && Writable(f, i)
  }

  lemma StillLet(w: World, p: Pass, v: World, q: Pass, seen: seq<Seen>, m: nat, parts: seq<Parts>)
    requires p.task.file < |w.files| && p.idx < m <= |w.files[p.task.file].table| && LetTo(w, p, seen, m)
    requires TurnsTo(w, p, v, q, parts)
    ensures LetTo(v, q, seen, m)
  {
    var n := p.task.file;
    forall i | q.idx <= i < m ensures Writable(v.files[n], i) {
      assert LeftAlone(w, v, Key(n, i)) && Writable(w.files[n], i);
    }
  }

  lemma PassOn(w: World, p: Pass, v: World, q: Pass, u: World, r: Pass, m: nat, parts: seq<Parts>)
    requires GapPass(w, p, parts) && p.idx < m <= |w.files[p.task.file].table| && TurnsTo(w, p, v, q, parts)
    requires PassedTo(v, q, u, r, m, parts)
    ensures PassedTo(w, p, u, r, m, parts)
  {
    var n := p.task.file;
    forall i | p.idx <= i < m ensures Met(w, u, n, i, parts[n]) {
      MetLater(w, p, v, q, u, r, m, parts, i);
    }
    forall i | 0 <= i < |w.files[n].table| && !(p.idx <= i < m) ensures LeftAlone(w, u, Key(n, i)) {
      assert LeftAlone(w, v, Key(n, i)) && LeftAlone(v, u, Key(n, i));
      LeftTwice(w, v, u, Key(n, i));
    }
  }

  lemma MetLater(w: World, p: Pass, v: World, q: Pass, u: World, r: Pass, m: nat, parts: seq<Parts>, i: nat)
    requires GapPass(w, p, parts) && p.idx <= i < m <= |w.files[p.task.file].table| && TurnsTo(w, p, v, q, parts)
    requires PassedTo(v, q, u, r, m, parts)
    ensures Met(w, u, p.task.file, i, parts[p.task.file])
  {
    var n := p.task.file;
    if i == p.idx {
      assert LeftAlone(v, u, Key(n, i)) && Met(w, v, n, i, parts[n]);
      if w.files[n].table[i].decoded || w.files[n].table[i].onDisk {
        OnDiskIsWritten(u, parts, n, i);
      } else {
        LeftTwice(w, v, u, Key(n, i));
      }
    } else {
      assert LeftAlone(w, v, Key(n, i)) && Met(v, u, n, i, parts[n]);
      if !(w.files[n].table[i].decoded || w.files[n].table[i].onDisk) {
        LeftTwice(w, v, u, Key(n, i));
      }
    }
  }

  lemma {:induction false} PassTo(w: World, p: Pass, seen: seq<Seen>, m: nat, parts: seq<Parts>)
    requires GapPass(w, p, parts) && LetTo(w, p, seen, m)
    requires p.skipped ==> w.files[p.task.file].next < p.idx
    ensures var (v, q) := RunPass(w, p, seen); PassedTo(w, p, v, q, m, parts)
    decreases m - p.idx
  {
    var n := p.task.file;
    if p.idx < m {
      Turn(w, p, seen[p.idx], parts);
      var (v, q) := Iterate(w, p, seen[p.idx]);
      StillLet(w, p, v, q, seen, m, parts);
      PassTo(v, q, seen, m, parts);
      var (u, r) := RunPass(v, q, seen);
      PassOn(w, p, v, q, u, r, m, parts);
    } else {
      Stopped(w, p, seen, parts);
    }
  }

  lemma Stopped(w: World, p: Pass, seen: seq<Seen>, parts: seq<Parts>)
    requires GapPass(w, p, parts) && |seen| == |w.files[p.task.file].table|
    requires p.idx < |seen| ==> !Lets(seen[p.idx])
    ensures RunPass(w, p, seen) == (w, Stop(p))
  {
    if p.idx < |seen| {
      assert Iterate(w, p, seen[p.idx]) == (w, Stop(p));
    }
  }

  /** An uninterrupted pass that may leave gaps, begun in any state in order with direct writes, up to the first article
      that was not tried yet while the job is not paused, or to the end of the file: every part from
      `assembler_next_index` on that is decoded is then on disk at its offset and gone from memory and admin folder; an
      article that is not decoded is left as it was, and so is everything from where the pass ended, every other file,
      and what they have in the cache; and the index is moved exactly to the first part that is not on disk. */
  lemma GapPassWrites(w: World, task: Task, seen: seq<Seen>, m: nat, parts: seq<Parts>, i: nat)
    requires WorldOk(w, parts, None) && task.file < |w.files| && task.allowNonContiguous && !task.fileDone
    requires |seen| == |w.files[task.file].table| && w.files[task.file].next <= m <= |seen|
    requires m < |seen| ==> seen[m].deleted || !(seen[m].tried || seen[m].paused)
    requires forall j :: w.files[task.file].next <= j < m ==> !seen[j].deleted && (seen[j].tried || seen[j].paused) && seen[j].sparseOk
    requires forall j :: w.files[task.file].next <= j < m && w.files[task.file].table[j].decoded && !w.files[task.file].table[j].onDisk
               ==> w.files[task.file].table[j].dataSize > 0 && w.files[task.file].yenc && w.files[task.file].filepath
    requires i < |seen|
    ensures PassFits(w, BeginPass(w, task, true))
    ensures var f, v, n := w.files[task.file], RunPass(w, BeginPass(w, task, true), seen).0, task.file;
      && |v.files| == |w.files| && |v.files[n].table| == |f.table|
      && (f.next <= i < m && (f.table[i].decoded || f.table[i].onDisk) ==> IsWritten(v, n, i, parts[n]))
      && (!(f.next <= i < m && (f.table[i].decoded || f.table[i].onDisk)) ==>
           v.files[n].table[i] == f.table[i] && Lookup(v, Key(n, i)) == Lookup(w, Key(n, i)))
      && OthersLeft(w, v, n)
      && f.next <= v.files[n].next <= m && (v.files[n].next < m ==> !v.files[n].table[v.files[n].next].onDisk)
  {
    var p := BeginPass(w, task, true);
    WorldSane(w, parts, None);
    assert FileOk(w.files[task.file], task.file, w.table, parts[task.file], None);
    forall j | p.idx <= j < m ensures Writable(w.files[task.file], j) {
    }
    PassTo(w, p, seen, m, parts);
    var v := RunPass(w, p, seen).0;
    if !(p.idx <= i < m) {
      assert LeftAlone(w, v, Key(task.file, i));
    } else {
      assert Met(w, v, task.file, i, parts[task.file]);
    }
  }
}
