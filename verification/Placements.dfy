/**
 Where the cache puts the data of an article, and when a turn of the assembler goes on, stops or drops what it holds, said
 in terms of limits, flags and the answers of the operating system.
 */
module Placements {
  import opened Options
  import opened Storage

  // ---------------------------------------------------------------------------------------------------- saved where

  /** The article can be written to the target file at its own offset, by the file system's leave. */
  predicate Direct(f: Nzf, i: nat, sparseOk: bool)
    requires i < |f.table|
  {
    f.table[i].dataSize > 0 && f.yenc && f.filepath && f.table[i].fileSize > 0 && (f.disk != [] || sparseOk)
  }

  predicate WholeWrite(data: Bytes, io: DirectIO) {
    io.failsAfter.None? || io.failsAfter.value >= |data|
  }

  /** Out of memory the data goes to the target file exactly if direct write is on, possible and does not fail: the
      article is then on disk and no longer registered. Otherwise it goes to the admin folder, whole, and the article's
      flags stay. */
  lemma FlushedWhere(w: World, k: Key, data: Bytes, io: DirectIO)
    requires Known(w, k) && Sane(w)
    ensures var v, a := FlushToDisk(w, k, data, io), ArticleOf(w, k);
      && v.table == w.table && v.size == w.size && v.limit == w.limit && v.upperLimit == w.upperLimit && v.directWrite == w.directWrite
      && Known(v, k)
      && ArticleOf(v, k) == (if w.directWrite && Direct(w.files[k.file], k.index, io.sparseOk) && WholeWrite(data, io)
                             then a.(onDisk := true, saved := false) else a.(artId := true, adminFile := Some(data)))
  {
  }

  /** And only then, if it was the next one, does `assembler_next_index` move over it. */
  lemma FlushMovesIndex(w: World, k: Key, data: Bytes, io: DirectIO)
    requires Known(w, k) && Sane(w)
    ensures var f, v := w.files[k.file], FlushToDisk(w, k, data, io);
      && k.file < |v.files|
      && v.files[k.file].next
         == if w.directWrite && Direct(f, k.index, io.sparseOk) && WholeWrite(data, io) && f.next == k.index then k.index + 1 else f.next
  {
  }

  /** What a direct write leaves in the target file, which is made sparse first if it is empty: all of the data, or as much
      as was written before the write failed. Without one the file is not touched, and no other file ever is. */
  lemma FlushedBytes(w: World, k: Key, data: Bytes, io: DirectIO)
    requires Known(w, k) && Sane(w)
    ensures var f, a, v := w.files[k.file], ArticleOf(w, k), FlushToDisk(w, k, data, io);
      var begun := if f.disk == [] then Zeros(a.fileSize) else f.disk;
      && |v.files| == |w.files| && (forall g :: 0 <= g < |w.files| && g != k.file ==> v.files[g] == w.files[g])
      && v.files[k.file].disk
         == if w.directWrite && Direct(f, k.index, io.sparseOk)
            then PWrite(begun, a.dataBegin, if WholeWrite(data, io) then data else data[..io.failsAfter.value])
            else f.disk
  {
  }

  /** A save keeps the data in memory exactly if there is memory, the data fits its limit, and it is not the first part of
      a file whose name is not known yet; otherwise it is flushed. The article is registered before. A job that is finished
      saves nothing. */
  lemma SavedWhere(w: World, k: Key, data: Bytes, env: SaveEnv)
    requires Known(w, k) && Sane(w) && k !in w.table
    ensures var v, a := SaveArticle(w, k, data, env), ArticleOf(w, k);
      && Known(v, k)
      && (env.finished ==> v == w)
      && (!env.finished ==>
           if w.limit != 0 && w.size + |data| <= w.limit && (a.lowestPartnum ==> env.named) then
             && v == w.(table := w.table[k := data], size := w.size + |data|, files := v.files)
             && v.files == w.files[k.file := w.files[k.file].(table := w.files[k.file].table[k.index := a.(saved := true)])]
           else v == FlushToDisk(WithArticle(w, k, a.(saved := true)), k, data, env.io))
  {
  }

  /** A load takes the data from memory, or else from the admin folder, and deletes it there; either way the article is no
      longer registered. */
  lemma LoadedFrom(w: World, k: Key)
    requires Known(w, k)
    ensures var v, a := LoadArticle(w, k), ArticleOf(w, k);
      && Lookup(w, k) == (if k in w.table then Some(w.table[k]) else if a.artId then a.adminFile else None)
      && v.table == w.table - {k} && v.size == w.size - (if k in w.table then |w.table[k]| else 0)
      && Known(v, k) && ArticleOf(v, k) == a.(saved := false, adminFile := if k !in w.table && a.artId then None else a.adminFile)
  {
    assert k !in w.table ==> w.table - {k} == w.table;
  }

  /** A purge takes the data out of memory, or else deletes the admin file, and changes nothing else of the article. */
  lemma PurgedFrom(w: World, k: Key)
    requires Known(w, k)
    ensures var v, a := PurgeOne(w, k), ArticleOf(w, k);
      && v.table == w.table - {k} && v.size == w.size - (if k in w.table then |w.table[k]| else 0)
      && Known(v, k) && ArticleOf(v, k) == a.(adminFile := if k !in w.table && a.artId then None else a.adminFile)
  {
    assert k !in w.table ==> w.table - {k} == w.table;
  }

  /** A new limit is the largest that is within the upper limit and, unless it is negative, within what was asked for. */
  lemma LimitIsLargest(w: World, limit: int)
    ensures var v := NewLimit(w, limit);
      && v == w.(limit := v.limit) && v.limit <= w.upperLimit && (limit >= 0 ==> v.limit <= limit)
      && (v.limit == w.upperLimit || (limit >= 0 && v.limit == limit))
  {
  }

  // ------------------------------------------------------------------------------------------------ turns of a pass

  /** A turn ends the pass before it touches anything, exactly at the end of the table, when the file is deleted, at an
      untried article of a job that is not paused if gaps are allowed, and, if they are not and the file is not done, at
      an article that is neither decoded nor on disk. */
  lemma EndsExactly(w: World, p: Pass, seen: Seen)
    requires PassFits(w, p) && p.running
    ensures var f := w.files[p.task.file];
      var ends := p.idx == |f.table| || seen.deleted || (p.task.allowNonContiguous && !seen.tried && !seen.paused)
                  || (!p.task.allowNonContiguous && !p.task.fileDone && !f.table[p.idx].onDisk && !f.table[p.idx].decoded);
      && (ends ==> Iterate(w, p, seen) == (w, p.(running := false)))
      && (!ends && (f.table[p.idx].onDisk || !f.table[p.idx].decoded) ==> Iterate(w, p, seen).1.running)
  {
  }

  /** A turn passes over an article that is on disk: the index moves with it while nothing was skipped, and an append
      offset moves by its length; and over a missing one, which it counts as skipped unless the file is done. */
  lemma PassesOver(w: World, p: Pass, seen: Seen)
    requires PassFits(w, p) && p.running && p.idx < |w.files[p.task.file].table| && !seen.deleted
    requires p.task.allowNonContiguous ==> seen.tried || seen.paused
    ensures var f, a, (v, q) := w.files[p.task.file], w.files[p.task.file].table[p.idx], Iterate(w, p, seen);
      && (a.onDisk ==>
           && v == w.(files := w.files[p.task.file := f.(next := if !p.skipped && f.next == p.idx then p.idx + 1 else f.next)])
           && q == p.(idx := p.idx + 1, offset := if p.isOpen then p.offset + a.decodedSize.GetOr(0) else p.offset))
      && (!a.onDisk && !a.decoded && p.task.fileDone ==> v == w && q == p.(idx := p.idx + 1))
      && (!a.onDisk && !a.decoded && !p.task.fileDone && p.task.allowNonContiguous ==> v == w && q == p.(idx := p.idx + 1, skipped := true))
  {
  }

  /** Whether the turn that has this part in hand writes directly: as the pass does that has the file open; else if it is
      to, and can. */
  predicate GoesDirect(f: Nzf, p: Pass, sparseOk: bool)
    requires p.idx < |f.table|
  {
    if p.isOpen then p.directWrite else p.directWrite && Direct(f, p.idx, sparseOk)
  }

  /** A turn that takes a part from the cache drops it, and ends the pass, exactly if gaps are allowed and the file was to
      be opened and cannot be written directly; or if it is written directly, this part cannot be, another was skipped
      before it, and the file is not done. Otherwise the part is on disk and the pass goes on. */
  lemma DropsExactly(f: Nzf, p: Pass, data: Bytes, sparseOk: bool)
    requires p.idx < |f.table| && f.next <= |f.table| && p.running
    ensures var a, (g, q) := f.table[p.idx], WriteLoaded(f, p, data, sparseOk);
      var direct, able := GoesDirect(f, p, sparseOk), a.dataSize > 0 && f.yenc && f.filepath;
      var drops := (!p.isOpen && p.task.allowNonContiguous && !direct) || (direct && !able && p.skipped && !p.task.fileDone);
      && (drops <==> !q.running)
      && (drops ==> g.table == f.table && g.next == f.next)
      && (!drops ==> g.table == f.table[p.idx := a.(onDisk := true)] && q.idx == p.idx + 1
                     && g.next == (if f.next == p.idx then p.idx + 1 else f.next)
                     && q.isOpen && q.directWrite == direct && q.skipped == p.skipped)
  {
  }

  /** Where it is written: at its own offset if directly, else behind what the pass has appended; a file that is opened to
      append goes on at its contiguous offset. */
  lemma WrittenWhere(f: Nzf, p: Pass, data: Bytes, sparseOk: bool)
    requires p.idx < |f.table| && f.next <= |f.table| && p.running && WriteLoaded(f, p, data, sparseOk).1.running
    ensures var a, (g, q) := f.table[p.idx], WriteLoaded(f, p, data, sparseOk);
      var direct, able := GoesDirect(f, p, sparseOk), a.dataSize > 0 && f.yenc && f.filepath;
      var disk := if !p.isOpen && p.directWrite && able && f.disk == [] && sparseOk then Zeros(a.fileSize) else f.disk;
      var offset := if p.isOpen then p.offset else ContiguousOffset(f);
      && g.disk == PWrite(disk, if direct && able then a.dataBegin else offset, data)
      && q.offset == offset + |data|
  {
  }

  /** A pass begins at `assembler_next_index`, with nothing open, skipped or appended. */
  lemma BeginsAtIndex(w: World, task: Task, directWrite: bool)
    requires task.file < |w.files|
    ensures var p := BeginPass(w, task, directWrite);
      p.running && p.idx == w.files[task.file].next && !p.isOpen && !p.skipped && p.offset == 0 && p.directWrite == directWrite && p.task == task
  {
  }

  // ---------------------------------------------------------------------------------------------- contiguous offset

  /** Lengths of the decoded parts, one after the other. */
  function Lengths(arts: seq<Article>): nat {
    if arts == [] then 0 else arts[0].decodedSize.GetOr(0) + Lengths(arts[1..])
  }

  /** Without offsets in the headers the contiguous offset is the sum of the decoded lengths of the parts on disk, up to
      the first that is not; for queues so old that they do not know these lengths it is the length of the file. */
  lemma {:induction false} OffsetWithoutHeaders(arts: seq<Article>, offset: nat, present: nat)
    requires forall i :: 0 <= i < |arts| ==> arts[i].dataSize == 0
    ensures (forall i :: 0 <= i < |arts| ==> arts[i].onDisk && arts[i].decodedSize.Some?) ==>
      SumDecoded(arts, offset, present) == offset + Lengths(arts)
    ensures forall n :: 0 <= n < |arts| && FirstMissing(arts, n) ==> SumDecoded(arts, offset, present) == offset + Lengths(arts[..n])
    ensures forall n :: 0 <= n < |arts| && FirstUnknown(arts, n) ==> SumDecoded(arts, offset, present) == present
    decreases |arts|
  {
    if arts != [] && arts[0].onDisk && arts[0].decodedSize.Some? {
      OffsetWithoutHeaders(arts[1..], offset + arts[0].decodedSize.value, present);
      forall n | 0 <= n < |arts| && FirstMissing(arts, n) ensures SumDecoded(arts, offset, present) == offset + Lengths(arts[..n]) {
        assert FirstMissing(arts[1..], n - 1);
        assert arts[..n][1..] == arts[1..][..n - 1];
      }
      forall n | 0 <= n < |arts| && FirstUnknown(arts, n) ensures SumDecoded(arts, offset, present) == present {
        assert FirstUnknown(arts[1..], n - 1);
      }
    }
  }

  /** The first article that is not on disk, all before it knowing their length. */
  predicate FirstMissing(arts: seq<Article>, n: int) {
    0 <= n < |arts| && !arts[n].onDisk && forall i :: 0 <= i < n ==> arts[i].onDisk && arts[i].decodedSize.Some?
  }

  predicate FirstUnknown(arts: seq<Article>, n: int) {
    && 0 <= n < |arts| && arts[n].onDisk && arts[n].decodedSize.None?
    && forall i :: 0 <= i < n ==> arts[i].onDisk && arts[i].decodedSize.Some?
  }
}
