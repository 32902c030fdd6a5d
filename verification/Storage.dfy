/**
 * A torrent's files on disk, read and written by ranges of the torrent. Laid end to end the files stand
 * for one flat array of bytes; padding files (BEP 47) read as zero and are never written.
 */
module Storage {
  import opened Basics

  type Byte = nat
  type Path = nat

  datatype Place = Place(path: Path, padding: bool)

  // A file's stretch of the torrent, and where it is kept.
  type Segment = Extent<Place>

  // A byte of the flat array, if it is there to be read.
  datatype Cell = Absent | Present(b: Byte)

  type Disk = map<Path, seq<Byte>>

  // ---- Layout ------------------------------------------------------------------------------------

  ghost predicate OwnPaths(files: seq<Segment>) {
    forall j, k :: 0 <= j < k < |files| && !files[j].info.padding && !files[k].info.padding ==> files[j].info.path != files[k].info.path
  }

  predicate Contains(s: Segment, x: int) { s.offset <= x < s.offset + s.length }

  /** Every position of the torrent is in exactly one file. */
  lemma {:induction false} OneSegment(files: seq<Segment>, x: nat) returns (k: nat)
    requires EndToEnd(files) && x < Total(files)
    ensures k < |files| && Contains(files[k], x)
    ensures forall j: nat :: j < |files| && Contains(files[j], x) ==> j == k
    decreases |files|
  {
    var last := |files| - 1;
    if files[last].offset <= x {
      k := last;
    } else {
      assert Adjacent(files, last - 1);
      var init := files[..last];
      forall j: nat | j + 1 < |init| ensures Adjacent(init, j) {
        assert Adjacent(files, j);
      }
      k := OneSegment(init, x);
    }
    forall j: nat | j < |files| && Contains(files[j], x) ensures j == k {
      if j < k {
        OffsetsRise(files, j, k);
      } else if k < j {
        OffsetsRise(files, k, j);
      }
    }
  }

  // ---- The parts of a range ----------------------------------------------------------------------

  datatype Part = Part(file: nat, fileOff: int, bufOff: int, length: int)

  function Lo(s: Segment, off: int): int { Max(off, s.offset) }
  function Hi(s: Segment, end: int): int { Min(end, s.offset + s.length) }

  // The parts so far, with that of file k.
  function WithPart(files: seq<Segment>, rest: seq<Part>, off: nat, n: nat, k: nat): seq<Part>
    requires k < |files|
  {
    var s := files[k];
    var lo, hi := Lo(s, off), Hi(s, off + n);
    if lo >= hi then rest else rest + [Part(k, lo - s.offset, lo - off, hi - lo)]
  }

  // The parts among the first k files, in order.
  function PartsOf(files: seq<Segment>, off: nat, n: nat, k: nat): seq<Part>
    requires k <= |files|
  {
    if k == 0 then [] else WithPart(files, PartsOf(files, off, n, k - 1), off, n, k - 1)
  }

  method Each(files: seq<Segment>, off: nat, n: nat) returns (parts: seq<Part>)
    ensures parts == PartsOf(files, off, n, |files|)
  {
    parts := [];
    for k := 0 to |files|
      invariant parts == PartsOf(files, off, n, k)
    {
      var s := files[k];
      var lo, hi := Lo(s, off), Hi(s, off + n);
      if lo < hi {
        parts := parts + [Part(k, lo - s.offset, lo - off, hi - lo)];
      }
    }
  }

  // A part lies inside its file, at the place its position in the buffer stands for.
  predicate PartFits(files: seq<Segment>, p: Part, off: int) {
    && p.file < |files| && p.length > 0 && 0 <= p.fileOff && p.fileOff + p.length <= files[p.file].length
    && off + p.bufOff == files[p.file].offset + p.fileOff
  }

  // The parts fill the buffer up to a size, each starting where the one before ended.
  predicate Tiles(files: seq<Segment>, parts: seq<Part>, off: int, size: int)
    decreases |parts|
  {
    if parts == [] then size == 0
    else
      var p := parts[|parts| - 1];
      PartFits(files, p, off) && p.bufOff + p.length == size && Tiles(files, parts[..|parts| - 1], off, p.bufOff)
  }

  function EndOf(files: seq<Segment>, k: nat): nat
    requires k <= |files|
  {
    if k == 0 then 0 else files[k - 1].offset + files[k - 1].length
  }

  lemma TileMore(files: seq<Segment>, parts: seq<Part>, p: Part, off: int)
    requires Tiles(files, parts, off, p.bufOff) && PartFits(files, p, off)
    ensures Tiles(files, parts + [p], off, p.bufOff + p.length)
  {
    assert (parts + [p])[..|parts|] == parts;
  }

  // How much of a range of length n starting at off lies before an offset.
  function Ahead(off: nat, n: nat, end: nat): nat {
    if end <= off then 0 else if end - off < n then end - off else n
  }

  lemma PartMeasures(s: Segment, off: nat, n: nat)
    ensures Lo(s, off) >= Hi(s, off + n) ==> Ahead(off, n, s.offset) == Ahead(off, n, s.offset + s.length)
    ensures Lo(s, off) < Hi(s, off + n) ==>
              && Ahead(off, n, s.offset) == Lo(s, off) - off
              && Ahead(off, n, s.offset + s.length) == Hi(s, off + n) - off
              && s.offset <= Lo(s, off) && Hi(s, off + n) <= s.offset + s.length
  {
  }

  lemma {:induction false} PartsTileUpTo(files: seq<Segment>, off: nat, n: nat, k: nat)
    requires EndToEnd(files) && k <= |files|
    ensures Tiles(files, PartsOf(files, off, n, k), off, Ahead(off, n, EndOf(files, k)))
  {
    if k > 0 {
      PartsTileUpTo(files, off, n, k - 1);
      assert EndOf(files, k - 1) == files[k - 1].offset by {
        assert k > 1 ==> Adjacent(files, k - 2);
      }
      TileStep(files, PartsOf(files, off, n, k - 1), off, n, k - 1);
    }
  }

  lemma TileStep(files: seq<Segment>, rest: seq<Part>, off: nat, n: nat, k: nat)
    requires k < |files| && Tiles(files, rest, off, Ahead(off, n, files[k].offset))
    ensures Tiles(files, WithPart(files, rest, off, n, k), off, Ahead(off, n, EndOf(files, k + 1)))
  {
    var s := files[k];
    PartMeasures(s, off, n);
    if Lo(s, off) < Hi(s, off + n) {
      TileMore(files, rest, Part(k, Lo(s, off) - s.offset, Lo(s, off) - off, Hi(s, off + n) - Lo(s, off)), off);
    }
  }

  /** The parts visited tile the part of the range that lies inside the torrent: no gap, no overlap. */
  lemma PartsTile(files: seq<Segment>, off: nat, n: nat)
    requires EndToEnd(files)
    ensures Tiles(files, PartsOf(files, off, n, |files|), off, Ahead(off, n, Total(files)))
  {
    PartsTileUpTo(files, off, n, |files|);
  }

  // ---- Files -------------------------------------------------------------------------------------

  function Content(disk: Disk, p: Path): seq<Byte> { if p in disk then disk[p] else [] }

  function Zeros(n: nat): seq<Byte> { seq(n, i => 0) }

  // Writing past the end of a file fills the gap with zeros.
  function Upto(content: seq<Byte>, at: nat): seq<Byte> {
    if at <= |content| then content[..at] else content + Zeros(at - |content|)
  }

  function Onwards(content: seq<Byte>, at: nat): seq<Byte> { if at <= |content| then content[at..] else [] }

  function Patched(content: seq<Byte>, at: nat, data: seq<Byte>): seq<Byte> {
    Upto(content, at) + data + Onwards(content, at + |data|)
  }

  function CellOf(s: Segment, disk: Disk, x: nat): Cell
    requires Contains(s, x)
  {
    if s.info.padding then Present(0)
    else At(Content(disk, s.info.path), x - s.offset)
  }

  function At(content: seq<Byte>, i: nat): Cell { if i < |content| then Present(content[i]) else Absent }

  /** The flat array: the byte at a position of the torrent. */
  ghost function Flat(files: seq<Segment>, disk: Disk, x: nat): Cell {
    if exists k: nat :: k < |files| && Contains(files[k], x) then
      var k: nat :| k < |files| && Contains(files[k], x);
      CellOf(files[k], disk, x)
    else Absent
  }

  lemma FlatIs(files: seq<Segment>, disk: Disk, x: nat, k: nat)
    requires EndToEnd(files) && k < |files| && Contains(files[k], x)
    ensures Flat(files, disk, x) == CellOf(files[k], disk, x)
  {
    var end := files[k].offset + files[k].length;
    if k < |files| - 1 {
      OffsetsRise(files, k, |files| - 1);
    }
    var j := OneSegment(files, x);
  }

  // ---- Writing -----------------------------------------------------------------------------------

  // What becomes of a cell at x when b's bytes from lo to hi are written.
  function SpliceAt(c: Cell, b: seq<Byte>, off: int, lo: int, hi: int, x: int): Cell {
    if lo <= x < hi && 0 <= x - off < |b| then Present(b[x - off]) else if c.Absent? && x < lo then Present(0) else c
  }

  // The new content is the old one once b's bytes from lo to hi went into the file, which starts at `start`.
  ghost predicate Spliced(content: seq<Byte>, content': seq<Byte>, start: nat, b: seq<Byte>, off: int, lo: int, hi: int) {
    forall i: nat :: At(content', i) == SpliceAt(At(content, i), b, off, lo, hi, start + i)
  }

  lemma PatchedAt(content: seq<Byte>, at: nat, data: seq<Byte>, i: nat)
    ensures At(Patched(content, at, data), i) ==
              if at <= i < at + |data| then Present(data[i - at])
              else if At(content, i).Absent? && i < at then Present(0)
              else At(content, i)
  {
    var front, back := Upto(content, at), Onwards(content, at + |data|);
    assert |front| == at && (i < at ==> front[i] == if i < |content| then content[i] else 0);
    if i < at {
      assert (front + data + back)[i] == front[i];
    } else if i < at + |data| {
      assert (front + data + back)[i] == data[i - at];
    } else if i < at + |data| + |back| {
      assert (front + data + back)[i] == back[i - at - |data|];
    }
  }

  lemma PatchedCell(content: seq<Byte>, start: nat, b: seq<Byte>, off: int, lo: int, hi: int, i: nat)
    requires off <= lo <= hi <= off + |b| && start <= lo
    ensures At(Patched(content, lo - start, b[lo - off..hi - off]), i) == SpliceAt(At(content, i), b, off, lo, hi, start + i)
  {
    var data := b[lo - off..hi - off];
    PatchedAt(content, lo - start, data, i);
    assert lo <= start + i < hi ==> data[i - (lo - start)] == b[start + i - off];
  }

  method Patch(content: seq<Byte>, start: nat, b: seq<Byte>, off: int, lo: int, hi: int) returns (content': seq<Byte>)
    requires off <= lo <= hi <= off + |b| && start <= lo
    ensures Spliced(content, content', start, b, off, lo, hi)
  {
    content' := Patched(content, lo - start, b[lo - off..hi - off]);
    forall i: nat ensures At(content', i) == SpliceAt(At(content, i), b, off, lo, hi, start + i) {
      PatchedCell(content, start, b, off, lo, hi, i);
    }
  }

  // How far a write of m bytes at off gets in a file that takes n bytes of its part.
  function TornTo(s: Segment, m: nat, off: nat, n: nat): int { Min(Lo(s, off) + n, Hi(s, off + m)) }

  lemma TornBounds(s: Segment, m: nat, off: nat, n: nat)
    requires Lo(s, off) < Hi(s, off + m)
    ensures s.offset <= Lo(s, off) && off <= Lo(s, off) <= TornTo(s, m, off, n) <= off + m
  {
  }

  // A file's content before and after it took n bytes of its part of a write.
  ghost predicate Took(s: Segment, content: seq<Byte>, content': seq<Byte>, b: seq<Byte>, off: nat, n: nat) {
    if n == 0 || Lo(s, off) >= Hi(s, off + |b|) then content' == content
    else Spliced(content, content', s.offset, b, off, Lo(s, off), TornTo(s, |b|, off, n))
  }

  ghost predicate FileTook(s: Segment, before: Disk, disk: Disk, b: seq<Byte>, off: nat, n: nat) {
    Took(s, Content(before, s.info.path), Content(disk, s.info.path), b, off, n)
  }

  // The first k files took their whole part, file k took n bytes, and the others are as they were.
  ghost predicate Progress(files: seq<Segment>, before: Disk, disk: Disk, b: seq<Byte>, off: nat, k: nat, n: nat) {
    forall j: nat :: j < |files| && !files[j].info.padding ==>
      FileTook(files[j], before, disk, b, off, if j < k then |b| else if j == k then n else 0)
  }

  ghost predicate Written(files: seq<Segment>, before: Disk, disk: Disk, b: seq<Byte>, off: nat) {
    Progress(files, before, disk, b, off, |files|, 0)
  }

  // The write stopped at file k: those before it are written, it holds what it took.
  ghost predicate FailedAt(files: seq<Segment>, before: Disk, disk: Disk, b: seq<Byte>, off: nat,
                           broken: map<Path, nat>, k: nat)
    requires k < |files|
  {
    && !files[k].info.padding && Lo(files[k], off) < Hi(files[k], off + |b|) && files[k].info.path in broken
    && Progress(files, before, disk, b, off, k, broken[files[k].info.path])
  }

  ghost predicate Owned(files: seq<Segment>, p: Path) {
    exists j: nat :: j < |files| && !files[j].info.padding && files[j].info.path == p
  }

  // Files of others are left alone.
  ghost predicate Untouched(files: seq<Segment>, before: Disk, disk: Disk) {
    forall p :: !Owned(files, p) ==> Content(disk, p) == Content(before, p) && (p in disk <==> p in before)
  }

  lemma FileWritten(files: seq<Segment>, before: Disk, d: Disk, disk: Disk, b: seq<Byte>, off: nat, k: nat, n: nat)
    requires OwnPaths(files) && k < |files| && !files[k].info.padding
    requires Progress(files, before, d, b, off, k, 0) && Untouched(files, before, d)
    requires disk == d[files[k].info.path := Content(disk, files[k].info.path)]
    requires Took(files[k], Content(d, files[k].info.path), Content(disk, files[k].info.path), b, off, n)
    ensures Progress(files, before, disk, b, off, k, n) && Untouched(files, before, disk)
  {
    assert Owned(files, files[k].info.path);
    assert FileTook(files[k], before, d, b, off, 0);
    forall j: nat | j < |files| && !files[j].info.padding
      ensures FileTook(files[j], before, disk, b, off, if j < k then |b| else if j == k then n else 0)
    {
      assert FileTook(files[j], before, d, b, off, if j < k then |b| else if j == k then 0 else 0);
    }
  }

  lemma FileDone(files: seq<Segment>, before: Disk, disk: Disk, b: seq<Byte>, off: nat, k: nat, n: nat)
    requires k < |files| && Progress(files, before, disk, b, off, k, n)
    requires n == |b| || files[k].info.padding || (n == 0 && Lo(files[k], off) >= Hi(files[k], off + |b|))
    ensures Progress(files, before, disk, b, off, k + 1, 0)
  {
    forall j: nat | j < |files| && !files[j].info.padding
      ensures FileTook(files[j], before, disk, b, off, if j < k + 1 then |b| else if j == k + 1 then 0 else 0)
    {
      assert FileTook(files[j], before, disk, b, off, if j < k then |b| else if j == k then n else 0);
    }
  }

  // ---- Writing, seen in the flat array -------------------------------------------------------------

  // The cell at x after its file took n bytes of its part.
  function TookAt(s: Segment, c: Cell, b: seq<Byte>, off: nat, n: nat, x: nat): Cell {
    if n == 0 || Lo(s, off) >= Hi(s, off + |b|) then c else SpliceAt(c, b, off, Lo(s, off), TornTo(s, |b|, off, n), x)
  }

  lemma TookCell(s: Segment, before: Disk, disk: Disk, b: seq<Byte>, off: nat, n: nat, x: nat)
    requires Contains(s, x) && !s.info.padding && FileTook(s, before, disk, b, off, n)
    ensures CellOf(s, disk, x) == TookAt(s, CellOf(s, before, x), b, off, n, x)
  {
    var i: nat := x - s.offset;
    assert s.offset + i == x;
    if n > 0 && Lo(s, off) < Hi(s, off + |b|) {
      assert At(Content(disk, s.info.path), i)
          == SpliceAt(At(Content(before, s.info.path), i), b, off, Lo(s, off), TornTo(s, |b|, off, n), s.offset + i);
    }
  }

  // A file that takes n bytes takes the first n of the range that belong to it.
  lemma TookFirst(s: Segment, c: Cell, b: seq<Byte>, off: nat, n: nat, x: nat)
    requires Contains(s, x) && Lo(s, off) < Hi(s, off + |b|)
    ensures var lo := Max(off, s.offset);
            TookAt(s, c, b, off, n, x) ==
              if lo <= x < lo + n && x < off + |b| then Present(b[x - off])
              else if c.Absent? && n > 0 && x < lo then Present(0)
              else c
  {
  }

  lemma TookWhole(s: Segment, c: Cell, b: seq<Byte>, off: nat, x: nat)
    requires Contains(s, x)
    ensures TookAt(s, c, b, off, |b|, x) ==
              if off <= x < off + |b| then Present(b[x - off])
              else if c.Absent? && b != [] && x < off && Contains(s, off) then Present(0)
              else c
  {
  }

  /** A completed write does to the flat array exactly this: the range holds the bytes written, a gap
      it opened in the file where it starts is zero, and everything else is as it was. */
  lemma WriteRefinesFlat(files: seq<Segment>, before: Disk, disk: Disk, b: seq<Byte>, off: nat, x: nat) returns (k: nat)
    requires EndToEnd(files) && Written(files, before, disk, b, off) && x < Total(files)
    ensures k < |files| && Contains(files[k], x)
    ensures Flat(files, disk, x) ==
              if files[k].info.padding then Present(0)
              else if off <= x < off + |b| then Present(b[x - off])
              else if Flat(files, before, x).Absent? && b != [] && x < off && Contains(files[k], off) then Present(0)
              else Flat(files, before, x)
  {
    k := OneSegment(files, x);
    FlatIs(files, before, x, k);
    FlatIs(files, disk, x, k);
    if !files[k].info.padding {
      assert FileTook(files[k], before, disk, b, off, |b|);
      TookCell(files[k], before, disk, b, off, |b|, x);
      TookWhole(files[k], CellOf(files[k], before, x), b, off, x);
    }
  }

  /** And a write that failed at file k: in the files before it the range is written, file k holds the
      first bytes it took, and beyond it nothing has changed. */
  lemma FailureInFlat(files: seq<Segment>, before: Disk, disk: Disk, b: seq<Byte>, off: nat,
                      broken: map<Path, nat>, k: nat, x: nat) returns (j: nat)
    requires EndToEnd(files) && k < |files| && FailedAt(files, before, disk, b, off, broken, k) && x < Total(files)
    ensures j < |files| && Contains(files[j], x)
    ensures j > k ==> Flat(files, disk, x) == Flat(files, before, x)
    ensures j < k && !files[j].info.padding && off <= x < off + |b| ==> Flat(files, disk, x) == Present(b[x - off])
    ensures j == k ==>
              var lo, n := Max(off, files[k].offset), broken[files[k].info.path];
              Flat(files, disk, x) ==
                if lo <= x < lo + n && x < off + |b| then Present(b[x - off])
                else if Flat(files, before, x).Absent? && n > 0 && x < lo then Present(0)
                else Flat(files, before, x)
  {
    j := OneSegment(files, x);
    FlatIs(files, before, x, j);
    FlatIs(files, disk, x, j);
    if !files[j].info.padding {
      var n := if j < k then |b| else if j == k then broken[files[k].info.path] else 0;
      assert FileTook(files[j], before, disk, b, off, n);
      TookCell(files[j], before, disk, b, off, n, x);
      if j < k {
        TookWhole(files[j], CellOf(files[j], before, x), b, off, x);
      } else if j == k {
        TookFirst(files[k], CellOf(files[k], before, x), b, off, n, x);
      }
    }
  }

  lemma InTotal(files: seq<Segment>, k: nat)
    requires EndToEnd(files) && k < |files|
    ensures EndOf(files, k) == files[k].offset && EndOf(files, k + 1) <= Total(files)
  {
    assert k > 0 ==> Adjacent(files, k - 1);
    if k < |files| - 1 {
      OffsetsRise(files, k, |files| - 1);
    }
  }

  ghost predicate AllPresent(files: seq<Segment>, disk: Disk, off: nat, n: nat, end: nat) {
    forall x: nat :: off <= x < off + n && x < end ==> Flat(files, disk, x).Present?
  }

  lemma PresentMore(files: seq<Segment>, disk: Disk, off: nat, n: nat, k: nat)
    requires EndToEnd(files) && k < |files|
    ensures var s := files[k];
            AllPresent(files, disk, off, n, EndOf(files, k + 1)) <==>
            AllPresent(files, disk, off, n, EndOf(files, k))
            && (Lo(s, off) >= Hi(s, off + n) || s.info.padding || |Content(disk, s.info.path)| >= Hi(s, off + n) - s.offset)
  {
    var s := files[k];
    InTotal(files, k);
    forall x: nat | Contains(s, x) ensures Flat(files, disk, x) == CellOf(s, disk, x) {
      FlatIs(files, disk, x, k);
    }
    if Lo(s, off) < Hi(s, off + n) && AllPresent(files, disk, off, n, EndOf(files, k + 1)) {
      var x: nat := Hi(s, off + n) - 1;
      assert Flat(files, disk, x).Present?;
    }
  }

  datatype Result = Done(n: nat) | Failed

  class FileTorrent {
    const files: seq<Segment>
    var disk: Disk

    ghost predicate Valid()
      reads this
    {
      EndToEnd(files) && OwnPaths(files)
    }

    constructor (files: seq<Segment>, disk: Disk)
      requires EndToEnd(files) && OwnPaths(files)
      ensures Valid() && this.files == files && this.disk == disk
    {
      this.files, this.disk := files, disk;
    }

    /** Writing a range: every file gets its part, or the write stops at one that fails, which may by
        then hold any first bytes of its part; the files after it are as they were. `broken` says how
        many bytes a failing file takes. */
    method WriteAt(b: seq<Byte>, off: nat, broken: map<Path, nat>) returns (r: Result, ghost k: nat)
      requires Valid()
      modifies this
      ensures Valid() && Untouched(files, old(disk), disk)
      ensures r == Done(|b|) ==> Written(files, old(disk), disk, b, off)
      ensures r == Failed ==> k < |files| && FailedAt(files, old(disk), disk, b, off, broken, k)
      ensures r == Done(|b|) || r == Failed
      ensures broken == map[] ==> r == Done(|b|)
    {
      ghost var before := disk;
      k := 0;
      var i := 0;
      while i < |files|
        invariant 0 <= i <= |files|
        invariant Progress(files, before, disk, b, off, i, 0) && Untouched(files, before, disk)
      {
        var s := files[i];
        if Lo(s, off) >= Hi(s, off + |b|) || s.info.padding {
          FileDone(files, before, disk, b, off, i, 0);
        } else {
          var fails := s.info.path in broken;
          WritePart(b, off, i, if fails then broken[s.info.path] else |b|, before);
          if fails {
            return Failed, i;
          }
          FileDone(files, before, disk, b, off, i, |b|);
        }
        i := i + 1;
      }
      r := Done(|b|);
    }

    // Writes the first n bytes of a file's part.
    method WritePart(b: seq<Byte>, off: nat, i: nat, n: nat, ghost before: Disk)
      requires Valid() && i < |files| && !files[i].info.padding && Lo(files[i], off) < Hi(files[i], off + |b|)
      requires Progress(files, before, disk, b, off, i, 0) && Untouched(files, before, disk)
      modifies this
      ensures Progress(files, before, disk, b, off, i, n) && Untouched(files, before, disk)
    {
      var s := files[i];
      var content := Content(disk, s.info.path);
      if n > 0 {
        TornBounds(s, |b|, off, n);
        content := Patch(content, s.offset, b, off, Lo(s, off), TornTo(s, |b|, off, n));
      }
      ghost var d := disk;
      disk := disk[s.info.path := content];
      FileWritten(files, before, d, disk, b, off, i, n);
    }

    // Reads one file's part of the range; fails when the file is too short for it.
    method ReadFile(buf: array<Byte>, off: nat, k: nat) returns (ok: bool)
      requires Valid() && k < |files|
      modifies buf
      ensures !ok ==> exists x: nat :: off <= x < off + buf.Length && x < Total(files) && Flat(files, disk, x).Absent?
      ensures ok ==> forall i: nat :: i < buf.Length ==>
                if Contains(files[k], off + i) then Present(buf[i]) == Flat(files, disk, off + i) else buf[i] == old(buf[i])
    {
      var s := files[k];
      var lo, hi := Lo(s, off), Hi(s, off + buf.Length);
      if lo >= hi {
        return true;
      }
      InTotal(files, k);
      forall x: nat | lo <= x < hi ensures Flat(files, disk, x) == CellOf(s, disk, x) {
        FlatIs(files, disk, x, k);
      }
      var content := Content(disk, s.info.path);
      if !s.info.padding && |content| < hi - s.offset {
        ghost var x: nat := hi - 1;
        assert off <= x < off + buf.Length && x < Total(files) && Flat(files, disk, x).Absent?;
        return false;
      }
      forall i | lo - off <= i < hi - off {
        buf[i] := if s.info.padding then 0 else content[off + i - s.offset];
      }
      ok := true;
    }

    /** Reading a range fails exactly when a byte of it inside the torrent is absent; otherwise the
        buffer holds the flat array's bytes, and what lies past the torrent's end is left alone. */
    method ReadAt(buf: array<Byte>, off: nat) returns (r: Result)
      requires Valid()
      modifies buf
      ensures r == Done(buf.Length) || r == Failed
      ensures r == Done(buf.Length) <==>
                forall x: nat :: off <= x < off + buf.Length && x < Total(files) ==> Flat(files, disk, x).Present?
      ensures r == Done(buf.Length) ==>
                forall i: nat :: i < buf.Length ==>
                  if off + i < Total(files) then Present(buf[i]) == Flat(files, disk, off + i) else buf[i] == old(buf[i])
    {
      var k := 0;
      while k < |files|
        invariant 0 <= k <= |files|
        invariant forall i: nat :: i < buf.Length ==>
                    if off + i < EndOf(files, k) then Present(buf[i]) == Flat(files, disk, off + i) else buf[i] == old(buf[i])
      {
        InTotal(files, k);
        var ok := ReadFile(buf, off, k);
        if !ok {
          return Failed;
        }
        k := k + 1;
      }
      forall x: nat | off <= x < off + buf.Length && x < Total(files) ensures Flat(files, disk, x).Present? {
        var i: nat := x - off;
        assert Present(buf[i]) == Flat(files, disk, off + i);
      }
      r := Done(buf.Length);
    }

    /** Whether a piece's files are long enough to hold it: exactly when reading the piece would work. */
    method OnDisk(off: nat, n: nat) returns (ok: bool)
      requires Valid()
      ensures ok <==> AllPresent(files, disk, off, n, Total(files))
    {
      ok := true;
      var k := 0;
      while k < |files|
        invariant 0 <= k <= |files|
        invariant ok <==> AllPresent(files, disk, off, n, EndOf(files, k))
      {
        var s := files[k];
        var lo, hi := Lo(s, off), Hi(s, off + n);
        PresentMore(files, disk, off, n, k);
        if lo < hi && !s.info.padding && |Content(disk, s.info.path)| < hi - s.offset {
          ok := false;
        }
        k := k + 1;
      }
    }
  }
}
