/**
 The article cache and the assembler, as functions on values.

 A `World` is what `ArticleCache`, the admin folders, the jobs' `saved_articles` and the target files hold
 together. Every function below is one uninterrupted call (or one loop iteration) of the program; the classes in
 `NzbFiles` and `ArticleCaches` are proved to do exactly this, and `Assembly` proves what every
 interleaving of these steps keeps.
 */
module Storage {
  import opened Options

  type Byte = b: int | 0 <= b < 256

  type Bytes = seq<Byte>

  /** What the decoder learns about an article; `dataSize` is 0 when the offsets cannot be trusted. */
  datatype Header = Header(yenc: bool, dataBegin: nat, dataSize: nat, fileSize: nat, decodedSize: nat)

  /** One `Article`. `saved` is membership of the job's `saved_articles`; `adminFile` is the file that `art_id`
      names in the job's admin folder. */
  datatype Article = Article(
    dataBegin: nat, dataSize: nat, fileSize: nat, decodedSize: Option<nat>,
    lowestPartnum: bool, decoded: bool, onDisk: bool,
    saved: bool, artId: bool, adminFile: Option<Bytes>)

  /** One `NzbFile`: its decodetable, `assembler_next_index` and the bytes of the target file. */
  datatype Nzf = Nzf(table: seq<Article>, next: nat, disk: Bytes, yenc: bool, filepath: bool)

  /** An article is known by its file and its place in that file's decodetable. */
  datatype Key = Key(file: nat, index: nat)

  datatype World = World(
    table: map<Key, Bytes>, size: int, limit: int, upperLimit: nat, directWrite: bool, files: seq<Nzf>)

  predicate Known(w: World, k: Key) {
    k.file < |w.files| && k.index < |w.files[k.file].table|
  }

  function ArticleOf(w: World, k: Key): Article
    requires Known(w, k)
  {
    w.files[k.file].table[k.index]
  }

  function WithArticle(w: World, k: Key, a: Article): World
    requires Known(w, k)
  {
    w.(files := w.files[k.file := w.files[k.file].(table := w.files[k.file].table[k.index := a])])
  }

  // ---------------------------------------------------------------------------------------------- target files

  function Zeros(n: nat): Bytes {
    seq(n, i => 0)
  }

  /** POSIX pwrite: overwrite in place, grow the file with zeros when writing past its end. */
  function PWrite(disk: Bytes, pos: nat, data: Bytes): Bytes {
    if data == [] then disk
    else
      var grown := if |disk| < pos + |data| then disk + Zeros(pos + |data| - |disk|) else disk;
      grown[..pos] + data + grown[pos + |data|..]
  }

  predicate CanDirectWrite(f: Nzf, i: nat)
    requires i < |f.table|
  {
    f.table[i].dataSize > 0 && f.yenc && f.filepath
  }

  /** The fallback of `contiguous_offset`: walk the articles below the index. `present` is the file size that the
      oldest queues fall back to. */
  function SumDecoded(arts: seq<Article>, offset: nat, present: nat): nat {
    if arts == [] || !arts[0].onDisk then offset
    else if arts[0].dataSize > 0 then
      SumDecoded(arts[1..], arts[0].dataBegin + arts[0].decodedSize.GetOr(0), present)
    else if arts[0].decodedSize.Some? then
      SumDecoded(arts[1..], offset + arts[0].decodedSize.value, present)
    else present
  }

  function ContiguousOffset(f: Nzf): nat
    requires f.next <= |f.table|
  {
    if f.next > 0 && f.table[f.next - 1].onDisk && f.table[f.next - 1].dataSize > 0 then
      f.table[f.next - 1].dataBegin + f.table[f.next - 1].dataSize
    else
      SumDecoded(f.table[..f.next], 0, |f.disk|)
  }

  /** `Assembler.open`: an empty file is made sparse when direct write is wanted, which may fail. */
  function Open(f: Nzf, direct: bool, fileSize: nat, sparseOk: bool): (r: (Nzf, nat, bool))
    requires f.next <= |f.table|
  {
    var offset := ContiguousOffset(f);
    if direct && |f.disk| == 0 then
      if sparseOk then (f.(disk := Zeros(fileSize)), offset, fileSize > 0) else (f, offset, false)
    else (f, offset, direct && fileSize > 0)
  }

  /** `Assembler.write` of the whole of `data` for article `i`. */
  function Write(f: Nzf, i: nat, data: Bytes, pos: nat): Nzf
    requires i < |f.table|
  {
    f.(disk := PWrite(f.disk, pos, data),
       table := f.table[i := f.table[i].(onDisk := true)],
       next := if f.next == i then i + 1 else f.next)
  }

  /** How the operating system treats one direct write: whether `sparse` works, and after how many bytes the
      write fails, if it does. */
  datatype DirectIO = DirectIO(sparseOk: bool, failsAfter: Option<nat>)

  /** `Assembler.assemble_article`. */
  function AssembleArticle(f: Nzf, i: nat, data: Bytes, io: DirectIO): (r: (Nzf, bool))
    requires i < |f.table| && f.next <= |f.table|
  {
    if !CanDirectWrite(f, i) then (f, false)
    else
      var (f1, _, direct) := Open(f, true, f.table[i].fileSize, io.sparseOk);
      if !direct then (f1, false)
      else if io.failsAfter.Some? && io.failsAfter.value < |data| then
        (f1.(disk := PWrite(f1.disk, f1.table[i].dataBegin, data[..io.failsAfter.value])), false)
      else (Write(f1, i, data, f1.table[i].dataBegin), true)
  }

  // --------------------------------------------------------------------------------------------- article cache

  predicate Sane(w: World) {
    forall f :: 0 <= f < |w.files| ==> w.files[f].next <= |w.files[f].table|
  }

  /** `__flush_article_to_disk`. */
  function FlushToDisk(w: World, k: Key, data: Bytes, io: DirectIO): World
    requires Known(w, k) && Sane(w)
  {
    var (f, written) := if w.directWrite then AssembleArticle(w.files[k.file], k.index, data, io)
                        else (w.files[k.file], false);
    var w1 := w.(files := w.files[k.file := f]);
    var a := f.table[k.index];
    if written then WithArticle(w1, k, a.(saved := false))
    else WithArticle(w1, k, a.(artId := true, adminFile := Some(data)))
  }

  /** What `save_article` observes of the job: `pp_or_finished`, and whether the file's import is finished or its
      name is verified. */
  datatype SaveEnv = SaveEnv(finished: bool, named: bool, io: DirectIO)

  predicate FitsInMemory(w: World, data: Bytes) {
    w.limit != 0 && w.size + |data| <= w.limit
  }

  function SaveArticle(w: World, k: Key, data: Bytes, env: SaveEnv): World
    requires Known(w, k) && Sane(w)
  {
    if env.finished then w
    else
      var w1 := WithArticle(w, k, ArticleOf(w, k).(saved := true));
      if ArticleOf(w, k).lowestPartnum && !env.named then FlushToDisk(w1, k, data, env.io)
      else if FitsInMemory(w1, data) then w1.(size := w1.size + |data|, table := w1.table[k := data])
      else FlushToDisk(w1, k, data, env.io)
  }

  /** What `load_article` can find. */
  function Lookup(w: World, k: Key): Option<Bytes>
    requires Known(w, k)
  {
    if k in w.table then Some(w.table[k])
    else if ArticleOf(w, k).artId then ArticleOf(w, k).adminFile
    else None
  }

  function LoadArticle(w: World, k: Key): World
    requires Known(w, k)
  {
    var a := ArticleOf(w, k);
    if k in w.table then
      WithArticle(w, k, a.(saved := false)).(table := w.table - {k}, size := w.size - |w.table[k]|)
    else if a.artId then WithArticle(w, k, a.(saved := false, adminFile := None))
    else WithArticle(w, k, a.(saved := false))
  }

  /** One turn of the loop of `flush_articles`. */
  function FlushOne(w: World, k: Key, io: DirectIO): World
    requires Known(w, k) && Sane(w) && k in w.table
  {
    FlushToDisk(w.(table := w.table - {k}), k, w.table[k], io)
  }

  /** One turn of the loop of `purge_articles`. */
  function PurgeOne(w: World, k: Key): World
    requires Known(w, k)
  {
    if k in w.table then w.(table := w.table - {k}, size := w.size - |w.table[k]|)
    else if ArticleOf(w, k).artId then WithArticle(w, k, ArticleOf(w, k).(adminFile := None))
    else w
  }

  function NewLimit(w: World, limit: int): World {
    w.(limit := if limit < 0 || w.upperLimit < limit then w.upperLimit else limit)
  }

  // ------------------------------------------------------------------------------------------------- assembler

  datatype Task = Task(file: nat, fileDone: bool, allowNonContiguous: bool)

  /** The local variables of `Assembler.assemble`, between two iterations of its loop. */
  datatype Pass = Pass(task: Task, idx: nat, running: bool, isOpen: bool, offset: nat, skipped: bool, directWrite: bool)

  /** What one iteration reads of state that other threads own. */
  datatype Seen = Seen(deleted: bool, paused: bool, tried: bool, sparseOk: bool)

  function BeginPass(w: World, task: Task, directWrite: bool): Pass
    requires task.file < |w.files|
  {
    Pass(task, w.files[task.file].next, true, false, 0, false, directWrite)
  }

  predicate PassFits(w: World, p: Pass) {
    && p.task.file < |w.files|
    && Sane(w)
    && (p.running ==> p.idx <= |w.files[p.task.file].table|)
  }

  function Stop(p: Pass): Pass {
    p.(running := false)
  }

  function Advance(p: Pass): Pass {
    p.(idx := p.idx + 1)
  }

  /** The `fd` and `direct_write` an iteration writes with, opening the file first when no earlier one did. */
  function OpenForPass(f: Nzf, p: Pass, sparseOk: bool): (r: (Nzf, Pass))
    requires p.idx < |f.table| && f.next <= |f.table|
  {
    if p.isOpen then (f, p)
    else
      var (f1, offset, direct) :=
        Open(f, p.directWrite && CanDirectWrite(f, p.idx), f.table[p.idx].fileSize, sparseOk);
      (f1, p.(isOpen := true, offset := offset, directWrite := direct))
  }

  /** The two `break`s that leave the loop with data already taken from the cache. */
  predicate DropsData(f: Nzf, before: Pass, p: Pass)
    requires p.idx < |f.table|
  {
    || (!before.isOpen && !p.directWrite && p.task.allowNonContiguous)
    || (p.directWrite && !CanDirectWrite(f, p.idx) && p.skipped && !p.task.fileDone)
  }

  /** Write the article at its own offset or, failing that, at the append offset. */
  function WriteOpened(f: Nzf, p: Pass, data: Bytes): (r: (Nzf, Pass))
    requires p.idx < |f.table|
  {
    var pos := if p.directWrite && CanDirectWrite(f, p.idx) then f.table[p.idx].dataBegin else p.offset;
    (Write(f, p.idx, data, pos), Advance(p.(offset := p.offset + |data|)))
  }

  /** The end of an iteration, once the data of the article is taken from the cache. */
  function WriteLoaded(f: Nzf, p: Pass, data: Bytes, sparseOk: bool): (r: (Nzf, Pass))
    requires p.idx < |f.table| && f.next <= |f.table|
  {
    var (f1, p1) := OpenForPass(f, p, sparseOk);
    if DropsData(f1, p, p1) then (f1, Stop(p1))
    else WriteOpened(f1, p1, data)
  }

  /** The iteration gets as far as taking the article's data from the cache. */
  predicate Loads(w: World, p: Pass, seen: Seen)
    requires PassFits(w, p) && p.running
  {
    var f := w.files[p.task.file];
    && p.idx < |f.table| && !seen.deleted
    && (p.task.allowNonContiguous ==> seen.tried || seen.paused)
    && !f.table[p.idx].onDisk && f.table[p.idx].decoded
  }

  /** An iteration that leaves or goes on without touching the cache. */
  function QuietIterate(w: World, p: Pass, seen: Seen): (r: (World, Pass))
    requires PassFits(w, p) && p.running && !Loads(w, p, seen)
  {
    var f := w.files[p.task.file];
    if p.idx == |f.table| || seen.deleted then (w, Stop(p))
    else if p.task.allowNonContiguous && !seen.tried && !seen.paused then (w, Stop(p))
    else if f.table[p.idx].onDisk then
      var f1 := if !p.skipped && f.next == p.idx then f.(next := p.idx + 1) else f;
      var offset := if p.isOpen then p.offset + f.table[p.idx].decodedSize.GetOr(0) else p.offset;
      (w.(files := w.files[p.task.file := f1]), Advance(p.(offset := offset)))
    else if p.task.fileDone then (w, Advance(p))
    else if p.task.allowNonContiguous then (w, Advance(p.(skipped := true)))
    else (w, Stop(p))
  }

  /** An iteration that takes data from the cache and writes it. */
  function LoadingIterate(w: World, p: Pass, seen: Seen): (r: (World, Pass))
    requires PassFits(w, p) && p.running && Loads(w, p, seen)
  {
    var k := Key(p.task.file, p.idx);
    var found := Lookup(w, k);
    var w1 := LoadArticle(w, k);
    if found.None? || found.value == [] then (w1, Advance(p))
    else
      var (f1, p1) := WriteLoaded(w1.files[k.file], p, found.value, seen.sparseOk);
      (w1.(files := w1.files[k.file := f1]), p1)
  }

  /** One iteration of the loop of `assemble`, or its exit. */
  function Iterate(w: World, p: Pass, seen: Seen): (r: (World, Pass))
    requires PassFits(w, p) && p.running
  {
    if Loads(w, p, seen) then LoadingIterate(w, p, seen) else QuietIterate(w, p, seen)
  }

  // ------------------------------------------------------------------------------- what no operation ever undoes

  /** No article leaves the disk, no index goes back, nothing about what an article decodes to is touched. */
  predicate FileGrows(f: Nzf, g: Nzf) {
    && |g.table| == |f.table| && g.yenc == f.yenc && g.filepath == f.filepath
    && f.next <= g.next <= |g.table|
    && forall i :: 0 <= i < |f.table| ==> ArticleGrows(f.table[i], g.table[i])
  }

  predicate ArticleGrows(a: Article, b: Article) {
    && (a.onDisk ==> b.onDisk) && b.decoded == a.decoded && b.decodedSize == a.decodedSize
    && b.dataBegin == a.dataBegin && b.dataSize == a.dataSize && b.fileSize == a.fileSize
    && b.lowestPartnum == a.lowestPartnum
  }

  predicate Grows(w: World, v: World) {
    |v.files| == |w.files| && forall f :: 0 <= f < |w.files| ==> FileGrows(w.files[f], v.files[f])
  }

  lemma AssembleArticleGrows(f: Nzf, i: nat, data: Bytes, io: DirectIO)
    requires i < |f.table| && f.next <= |f.table|
    ensures FileGrows(f, AssembleArticle(f, i, data, io).0)
  {
  }

  lemma OpenForPassGrows(f: Nzf, p: Pass, sparseOk: bool)
    requires p.idx < |f.table| && f.next <= |f.table|
    ensures var (g, q) := OpenForPass(f, p, sparseOk);
      g.table == f.table && g.next == f.next && FileGrows(f, g) && q.task == p.task && q.idx == p.idx
  {
  }

  lemma WriteOpenedGrows(f: Nzf, p: Pass, data: Bytes)
    requires p.idx < |f.table| && f.next <= |f.table|
    ensures var (g, q) := WriteOpened(f, p, data);
      FileGrows(f, g) && q.task == p.task && q.idx == p.idx + 1
  {
  }

  lemma WriteLoadedGrows(f: Nzf, p: Pass, data: Bytes, sparseOk: bool)
    requires p.idx < |f.table| && f.next <= |f.table|
    ensures var (g, q) := WriteLoaded(f, p, data, sparseOk);
      FileGrows(f, g) && q.task == p.task && (q.running ==> q.idx == p.idx + 1)
  {
    OpenForPassGrows(f, p, sparseOk);
    var (f1, p1) := OpenForPass(f, p, sparseOk);
    WriteOpenedGrows(f1, p1, data);
  }

  /** Of the articles, the end of an iteration marks the one it wrote, unless it dropped the data. */
  lemma WriteLoadedMarks(f: Nzf, p: Pass, data: Bytes, sparseOk: bool)
    requires p.idx < |f.table| && f.next <= |f.table|
    ensures var (f1, p1) := OpenForPass(f, p, sparseOk);
      var (g, q) := WriteLoaded(f, p, data, sparseOk);
      if DropsData(f1, p, p1) then g.table == f.table && g.next == f.next && !q.running
      else
        && g.table == f.table[p.idx := f.table[p.idx].(onDisk := true)]
        && g.next == (if f.next == p.idx then p.idx + 1 else f.next)
        && q.running == p.running && q.skipped == p.skipped && q.task == p.task && q.idx == p.idx + 1
  {
  }

  /** A change to one file is growth when it is growth of that file. */
  lemma OneFileGrows(w: World, v: World, f: nat)
    requires Sane(w) && f < |w.files| == |v.files|
    requires forall g :: 0 <= g < |w.files| && g != f ==> v.files[g] == w.files[g]
    requires FileGrows(w.files[f], v.files[f])
    ensures Grows(w, v)
  {
  }

  lemma GrowsTwice(u: World, v: World, w: World)
    requires Grows(u, v) && Grows(v, w)
    ensures Grows(u, w)
  {
    forall f | 0 <= f < |u.files| ensures FileGrows(u.files[f], w.files[f]) {
      assert FileGrows(u.files[f], v.files[f]) && FileGrows(v.files[f], w.files[f]);
      forall i | 0 <= i < |u.files[f].table| ensures ArticleGrows(u.files[f].table[i], w.files[f].table[i]) {
        assert ArticleGrows(u.files[f].table[i], v.files[f].table[i]);
        assert ArticleGrows(v.files[f].table[i], w.files[f].table[i]);
      }
    }
  }

  lemma FlushGrows(w: World, k: Key, data: Bytes, io: DirectIO)
    requires Known(w, k) && Sane(w)
    ensures Grows(w, FlushToDisk(w, k, data, io))
  {
    AssembleArticleGrows(w.files[k.file], k.index, data, io);
    OneFileGrows(w, FlushToDisk(w, k, data, io), k.file);
  }

  lemma LoadGrows(w: World, k: Key)
    requires Known(w, k) && Sane(w)
    ensures Grows(w, LoadArticle(w, k))
  {
    OneFileGrows(w, LoadArticle(w, k), k.file);
  }

  lemma SaveGrows(w: World, k: Key, data: Bytes, env: SaveEnv)
    requires Known(w, k) && Sane(w)
    ensures Grows(w, SaveArticle(w, k, data, env))
  {
    var w1 := WithArticle(w, k, ArticleOf(w, k).(saved := true));
    OneFileGrows(w, w1, k.file);
    FlushGrows(w1, k, data, env.io);
    GrowsTwice(w, w1, FlushToDisk(w1, k, data, env.io));
  }

  lemma LoadingIterateGrows(w: World, p: Pass, seen: Seen)
    requires PassFits(w, p) && p.running && Loads(w, p, seen)
    ensures var (v, q) := LoadingIterate(w, p, seen);
      Grows(w, v) && q.task == p.task && (q.running ==> q.idx == p.idx + 1)
  {
    var k := Key(p.task.file, p.idx);
    var w1 := LoadArticle(w, k);
    LoadGrows(w, k);
    var found := Lookup(w, k);
    if found.Some? && found.value != [] {
      var (g, q) := WriteLoaded(w1.files[k.file], p, found.value, seen.sparseOk);
      WriteLoadedGrows(w1.files[k.file], p, found.value, seen.sparseOk);
      var v := w1.(files := w1.files[k.file := g]);
      OneFileGrows(w1, v, k.file);
      GrowsTwice(w, w1, v);
    }
  }

  lemma QuietIterateGrows(w: World, p: Pass, seen: Seen)
    requires PassFits(w, p) && p.running && !Loads(w, p, seen)
    ensures var (v, q) := QuietIterate(w, p, seen);
      Grows(w, v) && q.task == p.task && (q.running ==> q.idx == p.idx + 1)
  {
    OneFileGrows(w, QuietIterate(w, p, seen).0, p.task.file);
  }

  /** Every iteration of the assembler only adds to what is on disk, and moves on or stops. */
  lemma IterateGrows(w: World, p: Pass, seen: Seen)
    requires PassFits(w, p) && p.running
    ensures var (v, q) := Iterate(w, p, seen);
      Grows(w, v) && PassFits(v, q) && q.task == p.task && (q.running ==> q.idx == p.idx + 1)
  {
    if Loads(w, p, seen) {
      LoadingIterateGrows(w, p, seen);
    } else {
      QuietIterateGrows(w, p, seen);
    }
    var v := Iterate(w, p, seen).0;
    assert FileGrows(w.files[p.task.file], v.files[p.task.file]);
  }

  /** A whole uninterrupted pass; `seen[i]` is what the iteration at index i observes. */
  function RunPass(w: World, p: Pass, seen: seq<Seen>): (r: (World, Pass))
    requires PassFits(w, p) && |seen| == |w.files[p.task.file].table|
    ensures |r.0.files| == |w.files| && !r.1.running
    decreases p.running, |w.files[p.task.file].table| - p.idx
  {
    if !p.running then (w, p)
    else if p.idx == |w.files[p.task.file].table| then (w, Stop(p))
    else
      var (w1, p1) := Iterate(w, p, seen[p.idx]);
      IterateGrows(w, p, seen[p.idx]);
      RunPass(w1, p1, seen)
  }
}
