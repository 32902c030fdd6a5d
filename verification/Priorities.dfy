/**
 * Which pieces a torrent wants. Two caches, the pending set and the piece request order, are kept in
 * step by hand with a priority that depends on files, readers, piece state and a torrent-wide switch.
 * Operations refresh only the pieces they think they touched; the proofs show that is enough.
 */
module Priorities {
  import opened Basics

  // None is 0; Normal, High, Readahead, Next and Now follow in order.
  type Prio = nat
  const NORMAL: Prio := 1
  const READAHEAD: Prio := 3
  const NOW: Prio := 5

  // A file's stretch of the torrent, with its priority.
  type File = Extent<Prio>

  datatype Piece = Piece(
    beginFile: nat,
    endFile: nat,
    priority: Prio,
    ok: bool,
    complete: bool,
    queued: bool,
    hashing: bool,
    marking: bool)

  function Unchecked(beginFile: nat, endFile: nat): Piece {
    Piece(beginFile, endFile, 0, false, false, false, false, false)
  }

  datatype Range = Range(begin: nat, end: nat)

  type ReaderId = nat

  // ---- Files and pieces --------------------------------------------------------------------------

  predicate Overlaps(pieceLength: nat, f: File, i: nat) {
    f.offset < (i + 1) * pieceLength && f.offset + f.length > i * pieceLength
  }

  lemma Quotient(a: nat, d: nat, i: nat)
    requires d > 0
    ensures a < (i + 1) * d <==> a / d <= i
    ensures a > i * d <==> (a + d - 1) / d > i
  {
    Below(a, d, i + 1);
    Below(a + d - 1, d, i + 1);
  }

  function BeginPiece(pieceLength: nat, f: File): nat
    requires pieceLength > 0
  {
    f.offset / pieceLength
  }

  function EndPiece(pieceLength: nat, f: File): nat
    requires pieceLength > 0
  {
    (f.offset + f.length + pieceLength - 1) / pieceLength
  }

  /** A piece shares bytes with a non-empty file exactly when it is in the file's index range; an empty
      file inside a piece also counts as touching that piece, and then the range has it too. */
  lemma FilePieces(pieceLength: nat, f: File, i: nat)
    requires pieceLength > 0
    ensures Overlaps(pieceLength, f, i) <==> BeginPiece(pieceLength, f) <= i < EndPiece(pieceLength, f)
  {
    Quotient(f.offset, pieceLength, i);
    Quotient(f.offset + f.length, pieceLength, i);
  }

  // The highest priority among the first k files that touch the piece.
  function FilesPrio(pieceLength: nat, files: seq<File>, i: nat, k: nat): Prio
    requires k <= |files|
  {
    if k == 0 then 0
    else if Overlaps(pieceLength, files[k - 1], i)
    then Max(FilesPrio(pieceLength, files, i, k - 1), files[k - 1].info)
    else FilesPrio(pieceLength, files, i, k - 1)
  }

  lemma {:induction false} SkipFiles(pieceLength: nat, files: seq<File>, i: nat, lo: nat, hi: nat)
    requires lo <= hi <= |files|
    requires forall j :: lo <= j < hi ==> !Overlaps(pieceLength, files[j], i)
    ensures FilesPrio(pieceLength, files, i, hi) == FilesPrio(pieceLength, files, i, lo)
  {
    if lo < hi {
      SkipFiles(pieceLength, files, i, lo, hi - 1);
    }
  }

  lemma {:induction false} OtherFile(pieceLength: nat, files: seq<File>, j: nat, f: File, i: nat, k: nat)
    requires j < |files| && k <= |files|
    requires !Overlaps(pieceLength, files[j], i) && !Overlaps(pieceLength, f, i)
    ensures FilesPrio(pieceLength, files[j := f], i, k) == FilesPrio(pieceLength, files, i, k)
  {
    if k > 0 {
      OtherFile(pieceLength, files, j, f, i, k - 1);
    }
  }

  method FirstFileIndex(pieceOffset: nat, files: seq<File>) returns (k: nat)
    ensures k <= |files|
    ensures forall j :: 0 <= j < k ==> files[j].offset + files[j].length <= pieceOffset
    ensures (k < |files| && files[k].offset + files[k].length > pieceOffset)
            || (k == 0 && forall j :: 0 <= j < |files| ==> files[j].offset + files[j].length <= pieceOffset)
  {
    k := 0;
    while k < |files|
      invariant k <= |files|
      invariant forall j :: 0 <= j < k ==> files[j].offset + files[j].length <= pieceOffset
    {
      if files[k].offset + files[k].length > pieceOffset {
        return;
      }
      k := k + 1;
    }
    k := 0;
  }

  method EndFileIndex(pieceEnd: nat, files: seq<File>) returns (k: nat)
    ensures k <= |files|
    ensures forall j :: 0 <= j < k ==> files[j].offset < pieceEnd
    ensures k < |files| ==> files[k].offset >= pieceEnd
  {
    k := 0;
    while k < |files|
      invariant k <= |files|
      invariant forall j :: 0 <= j < k ==> files[j].offset < pieceEnd
    {
      if files[k].offset >= pieceEnd {
        return;
      }
      k := k + 1;
    }
  }

  // The file range cached in a piece is exactly the files that touch it.
  ghost predicate FilesOf(pieceLength: nat, files: seq<File>, i: nat, b: nat, e: nat) {
    e <= |files| && forall j: nat :: j < |files| ==> (b <= j < e <==> Overlaps(pieceLength, files[j], i))
  }

  ghost predicate Reaches(pieceLength: nat, files: seq<File>, i: nat) {
    i * pieceLength < Total(files)
  }

  method FileRange(pieceLength: nat, files: seq<File>, i: nat) returns (b: nat, e: nat)
    requires EndToEnd(files) && Reaches(pieceLength, files, i)
    ensures FilesOf(pieceLength, files, i, b, e)
  {
    b := FirstFileIndex(i * pieceLength, files);
    e := EndFileIndex((i + 1) * pieceLength, files);
    forall j: nat | j < |files| ensures b <= j < e <==> Overlaps(pieceLength, files[j], i) {
      if b < j {
        OffsetsRise(files, b, j);
      }
      if e < j {
        OffsetsRise(files, e, j);
      }
    }
  }

  method LayOut(lengths: seq<nat>) returns (files: seq<File>)
    ensures EndToEnd(files) && |files| == |lengths|
    ensures forall j: nat :: j < |files| ==> files[j].length == lengths[j]
  {
    files := [];
    var offset := 0;
    for j := 0 to |lengths|
      invariant |files| == j && EndToEnd(files) && offset == Total(files)
      invariant forall k: nat :: k < j ==> files[k].length == lengths[k]
    {
      EndToEndMore(files, Extent(offset, lengths[j], 0));
      files := files + [Extent(offset, lengths[j], 0)];
      offset := offset + lengths[j];
    }
  }

  // ---- Byte regions ------------------------------------------------------------------------------

  function ByteRegionPieces(pieceLength: nat, pieces: nat, length: nat, off: int, size: int): Range
    requires pieceLength > 0
  {
    var size' := if off < 0 then size + off else size;
    var off' := if off < 0 then 0 else off;
    if off >= length || size' <= 0 then Range(0, 0)
    else Range(off' / pieceLength, Min(pieces, CeilDiv(off' + size', pieceLength)))
  }

  // A byte of piece i inside the region.
  lemma ByteInPiece(pieceLength: nat, length: nat, off: nat, end: nat, i: nat) returns (b: nat)
    requires pieceLength > 0 && off < length && off < end
    requires off / pieceLength <= i < CeilDiv(end, pieceLength) && i < CeilDiv(length, pieceLength)
    ensures b < length && off <= b < end && b / pieceLength == i
  {
    var start := i * pieceLength;
    Ceiling(end, pieceLength, i);
    Ceiling(length, pieceLength, i);
    Below(off, pieceLength, i + 1);
    assert (i + 1) * pieceLength == start + pieceLength;
    b := Max(off, start);
    Divided(b, pieceLength, i, b - start);
  }

  lemma PieceOfByte(pieceLength: nat, length: nat, off: nat, end: nat, b: nat)
    requires pieceLength > 0 && b < length && off <= b < end
    ensures off / pieceLength <= b / pieceLength < CeilDiv(end, pieceLength)
    ensures b / pieceLength < CeilDiv(length, pieceLength)
  {
    var i := b / pieceLength;
    Below(b, pieceLength, i);
    Below(b, pieceLength, i + 1);
    Below(off, pieceLength, i + 1);
    Ceiling(end, pieceLength, i);
    Ceiling(length, pieceLength, i);
  }

  ghost predicate HoldsByte(pieceLength: nat, length: nat, off: int, end: int, i: nat)
    requires pieceLength > 0
  {
    exists b: nat :: b < length && off <= b < end && b / pieceLength == i
  }

  lemma RegionHolds(pieceLength: nat, length: nat, off: nat, end: nat, i: nat)
    requires pieceLength > 0 && off < length && off < end
    ensures HoldsByte(pieceLength, length, off, end, i)
       <==> off / pieceLength <= i < CeilDiv(end, pieceLength) && i < CeilDiv(length, pieceLength)
  {
    if off / pieceLength <= i < CeilDiv(end, pieceLength) && i < CeilDiv(length, pieceLength) {
      var b := ByteInPiece(pieceLength, length, off, end, i);
    }
    if HoldsByte(pieceLength, length, off, end, i) {
      var b: nat :| b < length && off <= b < end && b / pieceLength == i;
      PieceOfByte(pieceLength, length, off, end, b);
    }
  }

  lemma NoNegativeByte(pieceLength: nat, length: nat, off: int, end: int, i: nat)
    requires pieceLength > 0
    ensures HoldsByte(pieceLength, length, off, end, i) == HoldsByte(pieceLength, length, Max(off, 0), end, i)
  {
  }

  /** The pieces reported for a byte region are exactly those holding one of its bytes. */
  lemma RegionPieces(pieceLength: nat, pieces: nat, length: nat, off: int, size: int, i: nat)
    requires pieceLength > 0 && pieces == CeilDiv(length, pieceLength)
    ensures var r := ByteRegionPieces(pieceLength, pieces, length, off, size);
            r.end <= pieces && (r.begin <= i < r.end <==> HoldsByte(pieceLength, length, off, off + size, i))
  {
    NoNegativeByte(pieceLength, length, off, off + size, i);
    Ceiling(length, pieceLength, 0);
    if Max(off, 0) < length && Max(off, 0) < off + size {
      RegionHolds(pieceLength, length, Max(off, 0), off + size, i);
    }
  }

  datatype Reader = Reader(offset: nat, length: nat, pos: int, reading: bool, readahead: int)

  function PiecesUncached(pieceLength: nat, pieces: nat, length: nat, r: Reader): Range
    requires pieceLength > 0
  {
    var ra := if r.reading then (if r.readahead < 1 then 1 else r.readahead) else 0;
    ByteRegionPieces(pieceLength, pieces, length, r.offset + r.pos, if ra > r.length - r.pos then r.length - r.pos else ra)
  }

  /** In bytes: a reader covers exactly the pieces that hold a byte of the torrent between where it is
      and as far as it reads ahead, at least one byte and never beyond its file; and none while it is
      not reading. */
  lemma ReaderPieces(pieceLength: nat, pieces: nat, length: nat, r: Reader, i: nat)
    requires pieceLength > 0 && pieces == CeilDiv(length, pieceLength)
    ensures var range := PiecesUncached(pieceLength, pieces, length, r);
            && range.end <= pieces
            && (range.begin <= i < range.end <==>
                && r.reading
                && HoldsByte(pieceLength, length, r.offset + r.pos,
                             r.offset + Min(r.length, r.pos + Max(1, r.readahead)), i))
  {
    var ra := if r.reading then Max(1, r.readahead) else 0;
    RegionPieces(pieceLength, pieces, length, r.offset + r.pos, Min(ra, r.length - r.pos), i);
  }

  // ---- Priorities --------------------------------------------------------------------------------

  datatype World = World(
    pieceLength: nat,
    files: seq<File>,
    pieces: seq<Piece>,
    now: set<nat>,
    readahead: set<nat>,
    disallowed: bool)

  function Pure(w: World, i: nat): Prio
    requires i < |w.pieces|
  {
    Max(Max(FilesPrio(w.pieceLength, w.files, i, |w.files|), if i in w.now then NOW else 0),
        Max(if i in w.readahead then READAHEAD else 0, w.pieces[i].priority))
  }

  predicate Ignore(w: World, i: nat)
    requires i < |w.pieces|
  {
    var p := w.pieces[i];
    !p.ok || p.hashing || p.marking || w.disallowed || p.complete || p.queued
  }

  function Effective(w: World, i: nat): Prio
    requires i < |w.pieces|
  {
    if Ignore(w, i) then 0 else Pure(w, i)
  }

  /** Both caches are right about one piece. */
  ghost predicate At(w: World, pending: set<nat>, order: map<nat, Prio>, i: nat)
    requires i < |w.pieces|
  {
    && (i in pending <==> Effective(w, i) != 0)
    && (i in order <==> !Ignore(w, i))
    && (i in order ==> order[i] == Pure(w, i))
  }

  // The wanted, non-ignored pieces listed in the request order.
  function WantedInOrder(w: World, order: map<nat, Prio>): set<nat> {
    set i | i in order && order[i] != 0 && i < |w.pieces| && !Ignore(w, i)
  }

  /** When both caches are right the pending pieces are the wanted pieces, and the two views agree. */
  lemma CachesAgree(w: World, pending: set<nat>, order: map<nat, Prio>)
    requires forall i: nat :: i in pending ==> i < |w.pieces|
    requires forall i: nat :: i < |w.pieces| ==> At(w, pending, order, i)
    ensures WantedInOrder(w, order) == pending
    ensures forall i: nat :: i in pending <==> i < |w.pieces| && Effective(w, i) != 0
  {
    forall i: nat
      ensures i in WantedInOrder(w, order) <==> i in pending
      ensures i in pending <==> i < |w.pieces| && Effective(w, i) != 0
    {
      assert i < |w.pieces| ==> At(w, pending, order, i);
    }
  }

  // ---- Readers -----------------------------------------------------------------------------------

  ghost predicate Starts(readers: set<ReaderId>, ranges: map<ReaderId, Range>, i: nat) {
    exists r :: r in readers && r in ranges && ranges[r].begin == i && i < ranges[r].end
  }

  ghost predicate Ahead(readers: set<ReaderId>, ranges: map<ReaderId, Range>, i: nat) {
    exists r :: r in readers && r in ranges && ranges[r].begin < i < ranges[r].end
  }

  ghost predicate ReadersRight(readers: set<ReaderId>, ranges: map<ReaderId, Range>, now: set<nat>, readahead: set<nat>) {
    forall i: nat :: (i in now <==> Starts(readers, ranges, i)) && (i in readahead <==> Ahead(readers, ranges, i))
  }

  /** Adding one reader's range to the bitmaps keeps them exact. */
  lemma OneMoreReader(readers: set<ReaderId>, ranges: map<ReaderId, Range>, r: ReaderId,
                      now: set<nat>, readahead: set<nat>, now': set<nat>, readahead': set<nat>)
    requires r in ranges && ReadersRight(readers, ranges, now, readahead)
    requires forall i: nat :: i in now' <==> i in now || (ranges[r].begin == i && i < ranges[r].end)
    requires forall i: nat :: i in readahead' <==> i in readahead || ranges[r].begin < i < ranges[r].end
    ensures ReadersRight(readers + {r}, ranges, now', readahead')
  {
    forall i: nat
      ensures Starts(readers + {r}, ranges, i) <==> Starts(readers, ranges, i) || (ranges[r].begin == i && i < ranges[r].end)
      ensures Ahead(readers + {r}, ranges, i) <==> Ahead(readers, ranges, i) || ranges[r].begin < i < ranges[r].end
    {
      assert r in readers + {r};
      assert forall q :: q in readers ==> q in readers + {r};
    }
  }

  lemma EmptyReader(readers: set<ReaderId>, ranges: map<ReaderId, Range>, r: ReaderId, now: set<nat>, readahead: set<nat>)
    requires r !in ranges && readers <= ranges.Keys && ReadersRight(readers, ranges, now, readahead)
    ensures ReadersRight(readers + {r}, ranges[r := Range(0, 0)], now, readahead)
  {
    var ranges' := ranges[r := Range(0, 0)];
    forall i: nat
      ensures Starts(readers + {r}, ranges', i) == Starts(readers, ranges, i)
      ensures Ahead(readers + {r}, ranges', i) == Ahead(readers, ranges, i)
    {
      assert forall q :: q in readers ==> q in readers + {r} && ranges'[q] == ranges[q];
    }
  }

  predicate In(r: Range, i: nat) { r.begin <= i < r.end }

  // Somebody wants piece i: itself, a file with a byte in it, or a reader.
  ghost predicate Asked(w: World, readers: set<ReaderId>, ranges: map<ReaderId, Range>, i: nat)
    requires i < |w.pieces|
  {
    || w.pieces[i].priority > 0
    || (exists j: nat :: j < |w.files| && Overlaps(w.pieceLength, w.files[j], i) && w.files[j].info > 0)
    || (exists r :: r in readers && r in ranges && In(ranges[r], i))
  }

  lemma {:induction false} FilesPrioHighest(pieceLength: nat, files: seq<File>, i: nat, k: nat)
    requires k <= |files|
    ensures forall j: nat :: j < k && Overlaps(pieceLength, files[j], i) ==> files[j].info <= FilesPrio(pieceLength, files, i, k)
    ensures FilesPrio(pieceLength, files, i, k) == 0
         || exists j: nat :: j < k && Overlaps(pieceLength, files[j], i) && files[j].info == FilesPrio(pieceLength, files, i, k)
  {
    if k > 0 {
      FilesPrioHighest(pieceLength, files, i, k - 1);
    }
  }

  /** A piece is wanted exactly if somebody asks for it, downloading is allowed, and the piece is known
      to be incomplete and not on its way through hashing. */
  lemma WantedWhen(w: World, readers: set<ReaderId>, ranges: map<ReaderId, Range>, i: nat)
    requires i < |w.pieces| && ReadersRight(readers, ranges, w.now, w.readahead)
    ensures var p := w.pieces[i];
            Effective(w, i) != 0 <==>
              && !w.disallowed && p.ok && !p.complete && !p.queued && !p.hashing && !p.marking
              && Asked(w, readers, ranges, i)
  {
    FilesPrioHighest(w.pieceLength, w.files, i, |w.files|);
    assert i in w.now <==> Starts(readers, ranges, i);
    assert i in w.readahead <==> Ahead(readers, ranges, i);
  }

  /** The priority of a piece is the highest anybody gives it: 5 where a reader stands, 3 where one reads
      ahead, and what its files and the piece itself were given. */
  lemma PureIsHighest(w: World, readers: set<ReaderId>, ranges: map<ReaderId, Range>, i: nat)
    requires i < |w.pieces| && ReadersRight(readers, ranges, w.now, w.readahead)
    ensures var prio := Pure(w, i);
            && w.pieces[i].priority <= prio
            && (forall j: nat :: j < |w.files| && Overlaps(w.pieceLength, w.files[j], i) ==> w.files[j].info <= prio)
            && (Ahead(readers, ranges, i) ==> 3 <= prio) && (Starts(readers, ranges, i) ==> 5 <= prio)
            && (|| prio == w.pieces[i].priority
                || (exists j: nat :: j < |w.files| && Overlaps(w.pieceLength, w.files[j], i) && w.files[j].info == prio)
                || (Ahead(readers, ranges, i) && prio == 3) || (Starts(readers, ranges, i) && prio == 5))
  {
    FilesPrioHighest(w.pieceLength, w.files, i, |w.files|);
    assert i in w.now <==> Starts(readers, ranges, i);
    assert i in w.readahead <==> Ahead(readers, ranges, i);
  }

  /** Moving one reader only changes the reader priority of pieces in its old or its new range. */
  lemma MoveTouches(readers: set<ReaderId>, ranges: map<ReaderId, Range>, r: ReaderId, to: Range, i: nat)
    requires r in ranges && !In(ranges[r], i) && !In(to, i)
    ensures Starts(readers, ranges[r := to], i) == Starts(readers, ranges, i)
    ensures Ahead(readers, ranges[r := to], i) == Ahead(readers, ranges, i)
  {
    assert forall q :: q in readers && q in ranges && In(ranges[q], i) ==> ranges[r := to][q] == ranges[q];
    assert forall q :: q in readers && q in ranges[r := to] && In(ranges[r := to][q], i) ==> ranges[q] == ranges[r := to][q];
  }

  function Span(begin: nat, end: nat): (s: set<nat>)
    ensures forall i: nat :: i in s <==> begin <= i < end
    decreases end - begin
  {
    if begin < end then {begin} + Span(begin + 1, end) else {}
  }

  // ---- The torrent -------------------------------------------------------------------------------

  ghost predicate PieceShape(pieceLength: nat, files: seq<File>, p: Piece, i: nat) {
    FilesOf(pieceLength, files, i, p.beginFile, p.endFile) && (p.complete ==> p.ok)
  }

  ghost predicate Shaped(pieceLength: nat, length: nat, files: seq<File>, pieces: seq<Piece>, ranges: map<ReaderId, Range>) {
    && pieceLength > 0
    && |pieces| == (length + pieceLength - 1) / pieceLength
    && (forall i: nat :: i < |pieces| ==> PieceShape(pieceLength, files, pieces[i], i))
    && (forall j: nat :: j < |files| ==> EndPiece(pieceLength, files[j]) <= |pieces|)
    && (forall r <- ranges :: ranges[r].end <= |pieces|)
  }

  // The pieces before anything is known of them, each with the files that touch it.
  method MakePieces(pieceLength: nat, files: seq<File>) returns (pieces: seq<Piece>)
    requires pieceLength > 0 && EndToEnd(files)
    ensures Shaped(pieceLength, Total(files), files, pieces, map[])
    ensures forall i: nat :: i < |pieces| ==> pieces[i] == Unchecked(pieces[i].beginFile, pieces[i].endFile)
  {
    var n := (Total(files) + pieceLength - 1) / pieceLength;
    pieces := [];
    for i := 0 to n
      invariant |pieces| == i
      invariant forall k: nat :: k < i ==> PieceShape(pieceLength, files, pieces[k], k)
      invariant forall k: nat :: k < i ==> pieces[k] == Unchecked(pieces[k].beginFile, pieces[k].endFile)
    {
      Quotient(Total(files), pieceLength, i);
      var b, e := FileRange(pieceLength, files, i);
      pieces := pieces + [Unchecked(b, e)];
    }
    forall j: nat | j < |files| ensures EndPiece(pieceLength, files[j]) <= n {
      FileEndsInside(pieceLength, files, j);
    }
  }

  lemma FileEndsInside(pieceLength: nat, files: seq<File>, j: nat)
    requires pieceLength > 0 && EndToEnd(files) && j < |files|
    ensures EndPiece(pieceLength, files[j]) <= CeilDiv(Total(files), pieceLength)
  {
    if j + 1 < |files| {
      OffsetsRise(files, j, |files| - 1);
    }
    var n := CeilDiv(Total(files), pieceLength);
    Quotient(files[j].offset + files[j].length, pieceLength, n);
    Quotient(Total(files), pieceLength, n);
  }

  // What storage says about a piece.
  datatype Stored = Stored(failed: bool, ok: bool, complete: bool)

  datatype Need = Panic | Data(needed: bool)

  datatype Event =
    | SetFilePriority(file: nat, prio: Prio)
    | SetPiecePriority(piece: nat, prio: Prio)
    | DownloadPieces(begin: nat, end: nat)
    | CancelPieces(begin: nat, end: nat)
    | OpenReader(reader: ReaderId, at: Reader)
    | MoveReader(reader: ReaderId, at: Reader)
    | CloseReader(reader: ReaderId)
    | SyncCompletion(piece: nat, failed: bool, ok: bool, complete: bool)
    | QueueCheck(piece: nat)
    | StartHash(piece: nat)
    | FinishRead(piece: nat)
    | FinishMark(piece: nat, passed: bool)
    | Disallow
    | Allow
    | Close

  // What has been asked of and is known about a torrent: all but the caches.
  datatype Facts = Facts(
    files: seq<File>,
    pieces: seq<Piece>,
    readers: set<ReaderId>,
    ranges: map<ReaderId, Range>,
    disallowed: bool,
    closed: bool)

  function PutPiece(f: Facts, i: nat, p: Piece): Facts
    requires i < |f.pieces|
  {
    f.(pieces := f.pieces[i := p])
  }

  function Each(pieces: seq<Piece>, begin: nat, end: nat, change: Piece -> Piece): seq<Piece> {
    seq(|pieces|, i requires 0 <= i < |pieces| => if begin <= i < end then change(pieces[i]) else pieces[i])
  }

  // What an event says, caches aside.
  function Told(f: Facts, e: Event, pieceLength: nat, length: nat): Facts
    requires pieceLength > 0
  {
    match e
    case SetFilePriority(j, prio) => if j < |f.files| then f.(files := f.files[j := f.files[j].(info := prio)]) else f
    case SetPiecePriority(i, prio) => if i < |f.pieces| then PutPiece(f, i, f.pieces[i].(priority := prio)) else f
    case DownloadPieces(b, n) =>
      if n <= |f.pieces| then f.(pieces := Each(f.pieces, b, n, (p: Piece) => p.(priority := Max(p.priority, 1)))) else f
    case CancelPieces(b, n) =>
      if n <= |f.pieces| then f.(pieces := Each(f.pieces, b, n, (p: Piece) => p.(priority := 0))) else f
    case OpenReader(r, at) =>
      if r in f.ranges then f
      else f.(readers := f.readers + {r}, ranges := f.ranges[r := PiecesUncached(pieceLength, |f.pieces|, length, at)])
    case MoveReader(r, at) =>
      if r !in f.ranges then f else f.(ranges := f.ranges[r := PiecesUncached(pieceLength, |f.pieces|, length, at)])
    case CloseReader(r) => f.(readers := f.readers - {r})
    case SyncCompletion(i, failed, ok, complete) =>
      if i >= |f.pieces| then f
      else PutPiece(f, i, f.pieces[i].(ok := ok, complete := ok && complete)).(disallowed := f.disallowed || failed)
    case QueueCheck(i) => if i < |f.pieces| then PutPiece(f, i, f.pieces[i].(queued := true)) else f
    case StartHash(i) =>
      if i < |f.pieces| && f.pieces[i].queued then PutPiece(f, i, f.pieces[i].(queued := false, hashing := true)) else f
    case FinishRead(i) =>
      if i < |f.pieces| && f.pieces[i].hashing
      then PutPiece(f, i, f.pieces[i].(hashing := false, marking := f.pieces[i].marking || !f.closed)) else f
    case FinishMark(i, passed) =>
      if i < |f.pieces| && f.pieces[i].marking
      then PutPiece(f, i, (if f.closed then f.pieces[i] else f.pieces[i].(ok := true, complete := passed)).(marking := false))
      else f
    case Disallow => f.(disallowed := true)
    case Allow => f.(disallowed := false)
    case Close => f.(closed := true)
  }

  function ToldAll(f: Facts, es: seq<Event>, pieceLength: nat, length: nat): Facts
    requires pieceLength > 0
    decreases |es|
  {
    if es == [] then f else Told(ToldAll(f, es[..|es| - 1], pieceLength, length), es[|es| - 1], pieceLength, length)
  }

  class Torrent {
    const pieceLength: nat
    const length: nat
    var files: seq<File>
    var pieces: seq<Piece>
    var readers: set<ReaderId>
    var ranges: map<ReaderId, Range>
    var now: set<nat>
    var readahead: set<nat>
    var disallowed: bool
    var closed: bool
    var pending: set<nat>
    var order: map<nat, Prio>

    ghost function W(): World
      reads this
    {
      World(pieceLength, files, pieces, now, readahead, disallowed)
    }

    ghost function Known(): Facts
      reads this
    {
      Facts(files, pieces, readers, ranges, disallowed, closed)
    }

    // Everything but the two caches.
    ghost predicate Shape()
      reads this
    {
      && Shaped(pieceLength, length, files, pieces, ranges)
      && readers <= ranges.Keys
      && (forall i: nat :: i in pending ==> i < |pieces|)
    }

    ghost predicate Right(i: nat)
      requires i < |pieces|
      reads this
    {
      At(W(), pending, order, i)
    }

    // While the torrent is open and may download, both caches are right outside the stale pieces.
    ghost predicate RightOutside(stale: set<nat>)
      reads this
    {
      && Shape()
      && ReadersRight(readers, ranges, now, readahead)
      && (!closed && !disallowed ==> forall i: nat :: i < |pieces| && i !in stale ==> Right(i))
    }

    ghost predicate Valid()
      reads this
    {
      RightOutside({})
    }

    // ---- Setting up ------------------------------------------------------------------------------

    constructor (pieceLength: nat, lengths: seq<nat>)
      requires pieceLength > 0
      ensures Valid() && !closed && !disallowed && this.pieceLength == pieceLength
      ensures |files| == |lengths| && forall j: nat :: j < |files| ==> files[j].length == lengths[j]
      ensures EndToEnd(files) && length == Total(files)
      ensures forall i: nat :: i < |pieces| ==> pieces[i] == Unchecked(pieces[i].beginFile, pieces[i].endFile)
      ensures readers == {} && pending == {} && order == map[]
    {
      var fs := LayOut(lengths);
      var ps := MakePieces(pieceLength, fs);
      this.pieceLength := pieceLength;
      length := Total(fs);
      files := fs;
      pieces := ps;
      readers, ranges, now, readahead := {}, map[], {}, {};
      disallowed, closed, pending, order := false, false, {}, map[];
    }

    // Once the metadata is known every piece's completion is fetched, and unknown ones are checked.
    method OnSetInfo(stored: seq<Stored>, checkUnknown: bool)
      requires Valid() && |stored| == |pieces|
      modifies this`pieces, this`order, this`pending, this`disallowed
      ensures Valid() && |pieces| == |stored|
      ensures forall i: nat :: i < |pieces| ==> (
                pieces[i].ok == stored[i].ok && pieces[i].complete == (stored[i].ok && stored[i].complete))
    {
      for i := 0 to |pieces|
        invariant Valid() && |pieces| == |stored|
        invariant forall k: nat :: k < i ==> (
                    pieces[k].ok == stored[k].ok && pieces[k].complete == (stored[k].ok && stored[k].complete))
      {
        SyncCompletion(i, stored[i].failed, stored[i].ok, stored[i].complete);
        if checkUnknown && !pieces[i].ok && !pieces[i].hashing {
          QueuePieceCheck(i);
        }
      }
    }

    // ---- Refreshing ------------------------------------------------------------------------------

    method PurePriority(i: nat) returns (prio: Prio)
      requires Shape() && i < |pieces|
      ensures prio == Pure(W(), i)
    {
      assert PieceShape(pieceLength, files, pieces[i], i);
      var b, e := pieces[i].beginFile, pieces[i].endFile;
      prio := 0;
      SkipFiles(pieceLength, files, i, 0, if b < e then b else 0);
      var j := b;
      while j < e
        invariant b <= j && (j <= e || j == b)
        invariant b < e ==> prio == FilesPrio(pieceLength, files, i, j)
        invariant e <= b ==> prio == 0
      {
        prio := Max(prio, files[j].info);
        j := j + 1;
      }
      SkipFiles(pieceLength, files, i, if b < e then e else 0, |files|);
      prio := Max(prio, if i in now then NOW else 0);
      prio := Max(prio, if i in readahead then READAHEAD else 0);
      prio := Max(prio, pieces[i].priority);
    }

    predicate IgnoreForRequests(i: nat)
      requires i < |pieces|
      reads this
    {
      var p := pieces[i];
      !p.ok || p.hashing || p.marking || disallowed || p.complete || p.queued
    }

    // The torrent has no entry in the request order once it is closed.
    method UpdateRequestOrderPiece(i: nat)
      requires Shape() && i < |pieces|
      modifies this`order
      ensures closed ==> order == old(order)
      ensures !closed ==> order == if Ignore(W(), i) then old(order) - {i} else old(order)[i := Pure(W(), i)]
    {
      if !closed {
        if IgnoreForRequests(i) {
          order := order - {i};
        } else {
          var prio := PurePriority(i);
          order := order[i := prio];
        }
      }
    }

    method UpdatePendingPieces(i: nat) returns (changed: bool)
      requires Shape() && i < |pieces|
      modifies this`pending
      ensures Shape()
      ensures pending == if Effective(W(), i) == 0 then old(pending) - {i} else old(pending) + {i}
      ensures changed <==> pending != old(pending)
    {
      var prio := 0;
      if !IgnoreForRequests(i) {
        prio := PurePriority(i);
      }
      if prio == 0 {
        changed := i in pending;
        pending := pending - {i};
      } else {
        changed := i !in pending;
        pending := pending + {i};
      }
    }

    /** Refreshing a piece makes both caches right about it and spoils no other. */
    method UpdatePiecePriority(i: nat, ghost stale: set<nat>)
      requires RightOutside(stale) && i < |pieces|
      modifies this`order, this`pending
      ensures RightOutside(stale - {i})
    {
      UpdateRequestOrderPiece(i);
      var changed := UpdatePendingPieces(i);
      forall j: nat | !closed && !disallowed && j < |pieces| && j !in stale - {i} ensures Right(j) {
        assert j != i ==> old(Right(j));
      }
    }

    method UpdatePiecePriorities(begin: nat, end: nat, ghost stale: set<nat>)
      requires RightOutside(stale) && end <= |pieces|
      modifies this`order, this`pending
      ensures RightOutside(stale - Span(begin, end))
    {
      var i := begin;
      while i < end
        invariant begin <= i && (i <= end || i == begin)
        invariant RightOutside(stale - Span(begin, i))
      {
        UpdatePiecePriority(i, stale - Span(begin, i));
        i := i + 1;
        assert stale - Span(begin, i - 1) - {i - 1} == stale - Span(begin, i);
      }
      assert Span(begin, i) == Span(begin, end);
    }

    // ---- Files and pieces ------------------------------------------------------------------------

    method SetFilePriority(j: nat, prio: Prio)
      requires Valid() && j < |files|
      modifies this`files, this`order, this`pending
      ensures Valid()
      ensures files == old(files)[j := old(files)[j].(info := prio)]
    {
      if prio != files[j].info {
        ghost var w := W();
        var f := files[j].(info := prio);
        files := files[j := f];
        forall i: nat | i < |pieces| ensures PieceShape(pieceLength, files, pieces[i], i) {
          assert PieceShape(pieceLength, old(files), pieces[i], i);
        }
        forall i: nat | i < |pieces| && !(BeginPiece(pieceLength, f) <= i < EndPiece(pieceLength, f))
          ensures Pure(W(), i) == Pure(w, i)
        {
          FilePieces(pieceLength, f, i);
          FilePieces(pieceLength, w.files[j], i);
          OtherFile(pieceLength, w.files, j, f, i, |files|);
        }
        ghost var stale := Span(BeginPiece(pieceLength, f), EndPiece(pieceLength, f));
        forall i: nat | !closed && !disallowed && i < |pieces| && i !in stale ensures Right(i) {
          assert old(Right(i));
        }
        UpdatePiecePriorities(BeginPiece(pieceLength, f), EndPiece(pieceLength, f), stale);
        assert stale - stale == {};
      }
    }

    // Changing one piece's own fields can only make that piece stale.
    method ChangePiece(i: nat, p: Piece)
      requires Valid() && i < |pieces|
      requires p.beginFile == pieces[i].beginFile && p.endFile == pieces[i].endFile && (p.complete ==> p.ok)
      modifies this`pieces, this`order, this`pending
      ensures Valid()
      ensures pieces == old(pieces)[i := p]
    {
      pieces := pieces[i := p];
      forall k: nat | k < |pieces| ensures PieceShape(pieceLength, files, pieces[k], k) {
        assert PieceShape(pieceLength, files, old(pieces)[k], k);
      }
      forall k: nat | !closed && !disallowed && k < |pieces| && k != i ensures Right(k) {
        assert old(Right(k));
      }
      UpdatePiecePriority(i, {i});
      assert {i} - {i} == {};
    }

    method SetPiecePriority(i: nat, prio: Prio)
      requires Valid() && i < |pieces|
      modifies this`pieces, this`order, this`pending
      ensures Valid()
      ensures pieces == old(pieces)[i := old(pieces)[i].(priority := prio)]
    {
      ChangePiece(i, pieces[i].(priority := prio));
    }

    method DownloadPieces(begin: nat, end: nat)
      requires Valid() && end <= |pieces|
      modifies this`pieces, this`order, this`pending
      ensures Valid() && |pieces| == |old(pieces)|
      ensures forall i: nat :: i < |pieces| ==>
                pieces[i] == if begin <= i < end then old(pieces)[i].(priority := Max(old(pieces)[i].priority, NORMAL))
                             else old(pieces)[i]
    {
      var i := begin;
      while i < end
        invariant begin <= i && (i <= end || i == begin)
        invariant Valid() && |pieces| == |old(pieces)|
        invariant forall k: nat :: k < |pieces| ==>
                    pieces[k] == if begin <= k < i then old(pieces)[k].(priority := Max(old(pieces)[k].priority, NORMAL))
                                 else old(pieces)[k]
      {
        if pieces[i].priority < NORMAL {
          SetPiecePriority(i, NORMAL);
        }
        i := i + 1;
      }
    }

    method CancelPieces(begin: nat, end: nat)
      requires Valid() && end <= |pieces|
      modifies this`pieces, this`order, this`pending
      ensures Valid() && |pieces| == |old(pieces)|
      ensures forall i: nat :: i < |pieces| ==>
                pieces[i] == if begin <= i < end then old(pieces)[i].(priority := 0) else old(pieces)[i]
    {
      var i := begin;
      while i < end
        invariant begin <= i && (i <= end || i == begin)
        invariant Valid() && |pieces| == |old(pieces)|
        invariant forall k: nat :: k < |pieces| ==>
                    pieces[k] == if begin <= k < i then old(pieces)[k].(priority := 0) else old(pieces)[k]
      {
        if pieces[i].priority != 0 {
          SetPiecePriority(i, 0);
        }
        i := i + 1;
      }
    }

    // ---- Readers ---------------------------------------------------------------------------------

    method UpdateReaderPieces()
      requires readers <= ranges.Keys
      modifies this`now, this`readahead
      ensures ReadersRight(readers, ranges, now, readahead)
    {
      var starts, ahead := {}, {};
      var todo := readers;
      ghost var done := {};
      while todo != {}
        invariant todo + done == readers && done <= ranges.Keys
        invariant ReadersRight(done, ranges, starts, ahead)
        decreases |todo|
      {
        var r :| r in todo;
        var p := ranges[r];
        var starts', ahead' := starts, ahead;
        if p.begin < p.end {
          starts' := starts + {p.begin};
          ahead' := ahead + Span(p.begin + 1, p.end);
        }
        OneMoreReader(done, ranges, r, starts, ahead, starts', ahead');
        starts, ahead, todo, done := starts', ahead', todo - {r}, done + {r};
      }
      assert done == readers;
      now, readahead := starts, ahead;
    }

    // Refreshes both ranges, as one span when they touch.
    method ReaderPosChanged(from: Range, to: Range)
      requires Shape() && from.end <= |pieces| && to.end <= |pieces| && from != to
      requires forall i: nat :: !In(from, i) && !In(to, i) ==>
                 (i in now <==> Starts(readers, ranges, i)) && (i in readahead <==> Ahead(readers, ranges, i))
      requires !closed && !disallowed ==>
                 forall i: nat :: i < |pieces| && !In(from, i) && !In(to, i) ==> Right(i)
      modifies this`now, this`readahead, this`order, this`pending
      ensures Valid()
    {
      UpdateReaderPieces();
      ghost var stale := Span(from.begin, from.end) + Span(to.begin, to.end);
      forall i: nat | !closed && !disallowed && i < |pieces| && i !in stale ensures Right(i) {
        assert !In(from, i) && !In(to, i);
        assert old(Right(i));
      }
      var l, h := from, to;
      if l.begin > h.begin {
        l, h := h, l;
      }
      if l.end < h.begin {
        UpdatePiecePriorities(l.begin, l.end, stale);
        UpdatePiecePriorities(h.begin, h.end, stale - Span(l.begin, l.end));
        assert stale - Span(l.begin, l.end) - Span(h.begin, h.end) == {};
      } else {
        UpdatePiecePriorities(l.begin, Max(l.end, h.end), stale);
        assert stale - Span(l.begin, Max(l.end, h.end)) == {};
      }
    }

    method PosChanged(r: ReaderId, to: Range)
      requires Valid() && r in ranges && to.end <= |pieces|
      modifies this`ranges, this`now, this`readahead, this`order, this`pending
      ensures Valid() && ranges == old(ranges)[r := to]
    {
      var from := ranges[r];
      if from != to {
        ranges := ranges[r := to];
        forall i: nat | !In(from, i) && !In(to, i)
          ensures (i in now <==> Starts(readers, ranges, i)) && (i in readahead <==> Ahead(readers, ranges, i))
        {
          MoveTouches(readers, old(ranges), r, to, i);
        }
        forall i: nat | !closed && !disallowed && i < |pieces| ensures Right(i) {
          assert old(Right(i));
        }
        ReaderPosChanged(from, to);
      }
      assert ranges == old(ranges)[r := to];
    }

    // A new reader covers nothing until its position is looked up.
    method AddReader(r: ReaderId, at: Reader)
      requires Valid() && r !in ranges
      modifies this`readers, this`ranges, this`now, this`readahead, this`order, this`pending
      ensures Valid() && readers == old(readers) + {r}
      ensures ranges == old(ranges)[r := PiecesUncached(pieceLength, |pieces|, length, at)]
    {
      readers := readers + {r};
      ranges := ranges[r := Range(0, 0)];
      EmptyReader(old(readers), old(ranges), r, now, readahead);
      forall i: nat | !closed && !disallowed && i < |pieces| ensures Right(i) {
        assert old(Right(i));
      }
      PosChanged(r, PiecesUncached(pieceLength, |pieces|, length, at));
    }

    method MoveReader(r: ReaderId, at: Reader)
      requires Valid() && r in ranges
      modifies this`ranges, this`now, this`readahead, this`order, this`pending
      ensures Valid() && ranges == old(ranges)[r := PiecesUncached(pieceLength, |pieces|, length, at)]
    {
      PosChanged(r, PiecesUncached(pieceLength, |pieces|, length, at));
    }

    method UpdateAllPiecePriorities()
      requires Shape() && ReadersRight(readers, ranges, now, readahead)
      modifies this`order, this`pending
      ensures Valid()
    {
      UpdatePiecePriorities(0, |pieces|, Span(0, |pieces|));
      assert Span(0, |pieces|) - Span(0, |pieces|) == {};
    }

    method DeleteReader(r: ReaderId)
      requires Valid()
      modifies this`readers, this`now, this`readahead, this`order, this`pending
      ensures Valid() && readers == old(readers) - {r}
    {
      readers := readers - {r};
      UpdateReaderPieces();
      UpdateAllPiecePriorities();
    }

    // ---- Completion and hashing ------------------------------------------------------------------

    method SetPieceCompletion(i: nat, ok: bool, complete: bool)
      requires Valid() && i < |pieces|
      modifies this`pieces, this`order, this`pending
      ensures Valid()
      ensures pieces == old(pieces)[i := old(pieces)[i].(ok := ok, complete := ok && complete)]
    {
      assert PieceShape(pieceLength, files, pieces[i], i);
      var p := pieces[i].(ok := ok, complete := ok && complete);
      if p != pieces[i] {
        ChangePiece(i, p);
      } else {
        // Only the request order is refreshed.
        UpdateRequestOrderPiece(i);
        forall j: nat | !closed && !disallowed && j < |pieces| ensures Right(j) {
          assert old(Right(j));
        }
        assert pieces == old(pieces)[i := p];
      }
    }

    // A storage error also stops downloading.
    method SyncCompletion(i: nat, failed: bool, ok: bool, complete: bool)
      requires Valid() && i < |pieces|
      modifies this`pieces, this`order, this`pending, this`disallowed
      ensures Valid() && disallowed == (old(disallowed) || failed)
      ensures pieces == old(pieces)[i := old(pieces)[i].(ok := ok, complete := ok && complete)]
    {
      if failed {
        DisallowDataDownload();
      }
      SetPieceCompletion(i, ok, complete);
    }

    method QueuePieceCheck(i: nat)
      requires Valid() && i < |pieces|
      modifies this`pieces, this`order, this`pending
      ensures Valid() && pieces == old(pieces)[i := old(pieces)[i].(queued := true)]
    {
      if pieces[i].queued {
        assert pieces == pieces[i := pieces[i].(queued := true)];
        return;
      }
      ChangePiece(i, pieces[i].(queued := true));
    }

    method StartHash(i: nat)
      requires Valid() && i < |pieces|
      modifies this`pieces, this`order, this`pending
      ensures Valid() && pieces == old(pieces)[i := old(pieces)[i].(queued := false, hashing := true)]
    {
      ChangePiece(i, pieces[i].(queued := false, hashing := true));
    }

    // The hash is known; the lock is released while storage is told, with nothing refreshed.
    method FinishRead(i: nat)
      requires Valid() && i < |pieces| && pieces[i].hashing
      modifies this`pieces, this`order, this`pending
      ensures Valid()
      ensures pieces == old(pieces)[i := old(pieces)[i].(hashing := false, marking := old(pieces)[i].marking || !closed)]
      ensures !closed ==> pending == old(pending) && order == old(order)
    {
      if closed {
        ChangePiece(i, pieces[i].(hashing := false));
        return;
      }
      var p := pieces[i].(hashing := false, marking := true);
      pieces := pieces[i := p];
      forall k: nat | k < |pieces| ensures PieceShape(pieceLength, files, pieces[k], k) {
        assert PieceShape(pieceLength, files, old(pieces)[k], k);
      }
      forall k: nat | !closed && !disallowed && k < |pieces| ensures Right(k) {
        assert old(Right(k));
      }
    }

    method FinishMark(i: nat, passed: bool)
      requires Valid() && i < |pieces| && pieces[i].marking
      modifies this`pieces, this`order, this`pending
      ensures Valid()
      ensures pieces == old(pieces)[i :=
                (if closed then old(pieces)[i] else old(pieces)[i].(ok := true, complete := passed)).(marking := false)]
    {
      if !closed {
        SetPieceCompletion(i, true, passed);
      }
      assert PieceShape(pieceLength, files, pieces[i], i);
      ChangePiece(i, pieces[i].(marking := false));
    }

    // ---- The switches ----------------------------------------------------------------------------

    // The flag is set without refreshing anything.
    method DisallowDataDownload()
      requires Valid()
      modifies this`disallowed
      ensures Valid() && disallowed
    {
      disallowed := true;
    }

    method AllowDataDownload()
      requires Valid()
      modifies this`disallowed, this`order, this`pending
      ensures Valid() && !disallowed
    {
      if disallowed {
        disallowed := false;
        UpdateAllPiecePriorities();
      }
    }

    method Close()
      requires Valid()
      modifies this`closed, this`order
      ensures Valid() && closed && order == map[]
    {
      closed := true;
      order := map[];
    }

    method PiecesInOrder() returns (found: set<nat>)
      ensures found == WantedInOrder(W(), order)
    {
      found := {};
      var todo := order.Keys;
      while todo != {}
        invariant todo <= order.Keys
        invariant found == WantedInOrder(W(), order) - todo
        decreases |todo|
      {
        var i :| i in todo;
        if order[i] != 0 && i < |pieces| && !IgnoreForRequests(i) {
          found := found + {i};
        }
        todo := todo - {i};
      }
    }

    /** `check` says whether the consistency check is due this time. When it is, it panics exactly when
        downloading was stopped while pieces were still pending; while downloading is allowed the
        answer is exact. */
    method NeedData(check: bool) returns (need: Need)
      requires Valid()
      ensures closed ==> need == Data(false)
      ensures !closed ==> (need == Panic <==> check && disallowed && pending != {})
      ensures !closed && need != Panic ==> need == Data(pending != {})
      ensures !closed && !disallowed ==>
                need == Data(exists i: nat :: i < |pieces| && Effective(W(), i) != 0)
    {
      if closed {
        return Data(false);
      }
      if !disallowed {
        forall i: nat | i < |pieces| ensures At(W(), pending, order, i) {
          assert Right(i);
        }
        CachesAgree(W(), pending, order);
      }
      if check {
        var found := PiecesInOrder();
        if found != pending {
          return Panic;
        }
      }
      need := Data(pending != {});
      assert pending != {} <==> exists i: nat :: i in pending;
    }

    // ---- Whole runs ------------------------------------------------------------------------------

    predicate AboutHashing(e: Event) {
      e.SyncCompletion? || e.QueueCheck? || e.StartHash? || e.FinishRead? || e.FinishMark?
    }

    predicate AboutPieces(e: Event) { e.SetFilePriority? || e.SetPiecePriority? || e.DownloadPieces? || e.CancelPieces? }

    method StepHashing(e: Event)
      requires Valid() && AboutHashing(e)
      modifies this
      ensures Valid() && Known() == Told(old(Known()), e, pieceLength, length)
    {
      match e {
        case SyncCompletion(i, failed, ok, complete) => if i < |pieces| { SyncCompletion(i, failed, ok, complete); }
        case QueueCheck(i) => if i < |pieces| { QueuePieceCheck(i); }
        case StartHash(i) => if i < |pieces| && pieces[i].queued { StartHash(i); }
        case FinishRead(i) => if i < |pieces| && pieces[i].hashing { FinishRead(i); }
        case FinishMark(i, passed) => if i < |pieces| && pieces[i].marking { FinishMark(i, passed); }
      }
    }

    method StepPieces(e: Event)
      requires Valid() && AboutPieces(e)
      modifies this
      ensures Valid() && Known() == Told(old(Known()), e, pieceLength, length)
    {
      match e {
        case SetFilePriority(j, prio) => if j < |files| { SetFilePriority(j, prio); }
        case SetPiecePriority(i, prio) => if i < |pieces| { SetPiecePriority(i, prio); }
        case DownloadPieces(b, n) => if n <= |pieces| { DownloadPieces(b, n); }
        case CancelPieces(b, n) => if n <= |pieces| { CancelPieces(b, n); }
      }
    }

    // One critical section; an event whose own guard fails changes nothing.
    method Step(e: Event)
      requires Valid()
      modifies this
      ensures Valid() && Known() == Told(old(Known()), e, pieceLength, length)
    {
      if AboutHashing(e) {
        StepHashing(e);
      } else if AboutPieces(e) {
        StepPieces(e);
      } else {
        match e {
          case OpenReader(r, at) => if r !in ranges { AddReader(r, at); }
          case MoveReader(r, at) => if r in ranges { MoveReader(r, at); }
          case CloseReader(r) => DeleteReader(r);
          case Disallow => DisallowDataDownload();
          case Allow => AllowDataDownload();
          case Close => Close();
        }
      }
    }

    /** After any sequence of operations, all that was asked and found out is as the events told it, and
        an open torrent that may download has exactly the wanted pieces pending, in agreement with the
        request order. */
    method Run(events: seq<Event>)
      requires Valid()
      modifies this
      ensures Valid() && Known() == ToldAll(old(Known()), events, pieceLength, length)
      ensures !closed && !disallowed ==>
                && pending == WantedInOrder(W(), order)
                && forall i: nat :: i in pending <==> i < |pieces| && Effective(W(), i) != 0
    {
      for k := 0 to |events|
        invariant Valid() && Known() == ToldAll(old(Known()), events[..k], pieceLength, length)
      {
        var more := events[..k + 1];
        assert more[..k] == events[..k];
        Step(events[k]);
      }
      assert events[..|events|] == events;
      if !closed && !disallowed {
        forall i: nat | i < |pieces| ensures At(W(), pending, order, i) {
          assert Right(i);
        }
        CachesAgree(W(), pending, order);
      }
    }
  }

  /** Stopping downloads while a piece is wanted makes the next check panic. */
  method StalePendingPanics() returns (need: Need)
    ensures need == Panic
  {
    var t := new Torrent(1, [1]);
    t.SetPieceCompletion(0, true, false);
    t.SetPiecePriority(0, NORMAL);
    assert 0 in t.pending by {
      assert t.Right(0);
    }
    t.DisallowDataDownload();
    need := t.NeedData(true);
  }
}
