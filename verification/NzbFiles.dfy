/** `NzbFile` and the file-level operations of the assembler, on an object that they update in place. */
module NzbFiles {
  import opened Options
  import opened Storage

  /** What a write leaves at each place of the file. */
  lemma PWriteAt(disk: Bytes, pos: nat, data: Bytes, i: nat)
    requires data != []
    ensures |PWrite(disk, pos, data)| == if |disk| < pos + |data| then pos + |data| else |disk|
    ensures i < |PWrite(disk, pos, data)| ==>
      PWrite(disk, pos, data)[i] == if pos <= i < pos + |data| then data[i - pos] else if i < |disk| then disk[i] else 0
  {
  }

  /** Writing in two steps is writing once: what makes a loop over short writes harmless. */
  lemma PWriteTwice(disk: Bytes, pos: nat, a: Bytes, b: Bytes)
    ensures PWrite(PWrite(disk, pos, a), pos + |a|, b) == PWrite(disk, pos, a + b)
  {
    if a == [] {
      assert a + b == b;
    } else if b == [] {
      assert a + b == a;
    } else {
      var x, y := PWrite(PWrite(disk, pos, a), pos + |a|, b), PWrite(disk, pos, a + b);
      PWriteTwiceAt(disk, pos, a, b, 0);
      forall i | 0 <= i < |x| ensures x[i] == y[i] {
        PWriteTwiceAt(disk, pos, a, b, i);
      }
    }
  }

  lemma PWriteTwiceAt(disk: Bytes, pos: nat, a: Bytes, b: Bytes, i: nat)
    requires a != [] && b != []
    ensures var x, y := PWrite(PWrite(disk, pos, a), pos + |a|, b), PWrite(disk, pos, a + b);
      |x| == |y| && (i < |x| ==> x[i] == y[i])
  {
    PWriteAt(disk, pos, a, i);
    PWriteAt(PWrite(disk, pos, a), pos + |a|, b, i);
    PWriteAt(disk, pos, a + b, i);
  }

  class NzbFile {
    var decodetable: seq<Article>
    var assemblerNextIndex: nat
    var disk: Bytes
    var yenc: bool
    var filepath: bool

    function State(): Nzf
      reads this
    {
      Nzf(decodetable, assemblerNextIndex, disk, yenc, filepath)
    }

    ghost predicate Valid()
      reads this
    {
      assemblerNextIndex <= |decodetable|
    }

    constructor (articles: seq<Article>)
      ensures State() == Nzf(articles, 0, [], false, false) && Valid()
    {
      decodetable, assemblerNextIndex, disk, yenc, filepath := articles, 0, [], false, false;
    }

    method GetContiguousOffset() returns (offset: nat)
      requires Valid()
      ensures offset == ContiguousOffset(State())
    {
      if assemblerNextIndex > 0 {
        var article := decodetable[assemblerNextIndex - 1];
        if article.onDisk && article.dataSize > 0 {
          return article.dataBegin + article.dataSize;
        }
      }
      offset := 0;
      var i := 0;
      while i < assemblerNextIndex
        invariant 0 <= i <= assemblerNextIndex
        invariant SumDecoded(decodetable[..assemblerNextIndex], 0, |disk|)
               == SumDecoded(decodetable[..assemblerNextIndex][i..], offset, |disk|)
      {
        var article := decodetable[i];
        assert decodetable[..assemblerNextIndex][i..][0] == article;
        assert decodetable[..assemblerNextIndex][i..][1..] == decodetable[..assemblerNextIndex][i + 1..];
        if !article.onDisk {
          break;
        }
        if article.dataSize > 0 {
          offset := article.dataBegin + article.decodedSize.GetOr(0);
        } else if article.decodedSize.Some? {
          offset := offset + article.decodedSize.value;
        } else {
          return |disk|;
        }
        i := i + 1;
      }
    }

    /** One `os.pwrite`: the system takes as many bytes as it likes, but at least one and at most `room`. */
    method PWriteSome(data: Bytes, pos: nat, room: nat) returns (written: nat)
      requires data != [] && room > 0
      modifies this`disk
      ensures 0 < written <= |data| && written <= room
      ensures disk == PWrite(old(disk), pos, data[..written])
    {
      written :| 0 < written <= |data| && written <= room;
      disk := PWrite(disk, pos, data[..written]);
    }

    /** The loop over short writes of `Assembler.write`. `room` is how many bytes the system still takes before it
        raises an error. */
    method WriteAll(data: Bytes, pos: nat, room: nat) returns (written: nat)
      modifies this`disk
      ensures written == if |data| <= room then |data| else room
      ensures disk == PWrite(old(disk), pos, data[..written])
    {
      written := 0;
      while written < |data| && written < room
        invariant 0 <= written <= |data| && written <= room
        invariant disk == PWrite(old(disk), pos, data[..written])
      {
        var n := PWriteSome(data[written..], pos + written, room - written);
        PWriteTwice(old(disk), pos, data[..written], data[written..][..n]);
        assert data[..written] + data[written..][..n] == data[..written + n];
        written := written + n;
      }
    }

    /** `Assembler.write`: write, then mark the article. */
    method WriteData(index: nat, data: Bytes, pos: nat, room: nat) returns (ok: bool)
      requires Valid() && index < |decodetable|
      modifies this
      ensures Valid() && ok == (|data| <= room)
      ensures ok ==> State() == Write(old(State()), index, data, pos)
      ensures !ok ==> State() == old(State()).(disk := PWrite(old(disk), pos, data[..room]))
    {
      var written := WriteAll(data, pos, room);
      if written < |data| {
        return false;
      }
      assert data[..|data|] == data;
      decodetable := decodetable[index := decodetable[index].(onDisk := true)];
      if assemblerNextIndex == index {
        assemblerNextIndex := assemblerNextIndex + 1;
      }
      ok := true;
    }

    /** `Assembler.open`. */
    method OpenFile(direct: bool, fileSize: nat, sparseOk: bool) returns (offset: nat, directWrite: bool)
      requires Valid()
      modifies this`disk
      ensures Valid() && (State(), offset, directWrite) == Open(old(State()), direct, fileSize, sparseOk)
    {
      offset := GetContiguousOffset();
      directWrite := direct;
      if direct {
        if fileSize == 0 {
          directWrite := false;
        }
        if |disk| == 0 {
          if sparseOk {
            disk := Zeros(fileSize);
          } else {
            directWrite := false;
          }
        }
      }
    }

    /** `Assembler.assemble_article`. */
    method AssembleOne(index: nat, data: Bytes, io: DirectIO) returns (ok: bool)
      requires Valid() && index < |decodetable|
      modifies this
      ensures Valid() && (State(), ok) == AssembleArticle(old(State()), index, data, io)
    {
      if !CanDirectWrite(State(), index) {
        return false;
      }
      var _, direct := OpenFile(true, decodetable[index].fileSize, io.sparseOk);
      if !direct {
        return false;
      }
      ok := WriteData(index, data, decodetable[index].dataBegin, io.failsAfter.GetOr(|data|));
    }

    /** The end of an iteration of `Assembler.assemble`: open the file if no earlier iteration did, then write the
        article at its own offset or at the append offset. */
    method WriteForPass(pass: Pass, data: Bytes, sparseOk: bool) returns (next: Pass)
      requires Valid() && pass.idx < |decodetable|
      modifies this
      ensures Valid() && (State(), next) == WriteLoaded(old(State()), pass, data, sparseOk)
    {
      next := pass;
      if !pass.isOpen {
        var article := decodetable[pass.idx];
        var offset, direct :=
          OpenFile(pass.directWrite && CanDirectWrite(State(), pass.idx), article.fileSize, sparseOk);
        next := next.(isOpen := true, offset := offset, directWrite := direct);
        if !direct && pass.task.allowNonContiguous {
          return Stop(next);
        }
      }
      var pos := next.offset;
      if next.directWrite && CanDirectWrite(State(), pass.idx) {
        pos := decodetable[pass.idx].dataBegin;
      } else if next.directWrite && pass.skipped && !pass.task.fileDone {
        return Stop(next);
      }
      var _ := WriteData(pass.idx, data, pos, |data|);
      next := next.(offset := next.offset + |data|, idx := pass.idx + 1);
    }
  }
}
