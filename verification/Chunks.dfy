/**
 * Chunk arithmetic: request indexes, wire requests and offsets into the torrent name the same chunks,
 * and byte counts of pieces and files add up.
 */
module Chunks {
  import opened Basics
  import L = Lifecycle

  // The piece count comes with the metadata, and the chunks of a full piece are counted once.
  datatype Torrent = Torrent(length: nat, pieceLength: nat, chunkSize: nat, pieces: nat, perPiece: nat)

  ghost predicate Sound(t: Torrent) {
    && t.pieceLength > 0 && t.chunkSize > 0
    && t.pieces == CeilDiv(t.length, t.pieceLength) && t.perPiece == CeilDiv(t.pieceLength, t.chunkSize)
  }

  // The same without division: enough pieces for the length, enough chunks for a piece, none to spare.
  ghost predicate Counted(t: Torrent) {
    && t.pieceLength > 0 && t.chunkSize > 0 && t.perPiece > 0
    && (forall i: nat :: i < t.pieces <==> Starts(t, i) < t.length)
    && (forall c: nat :: c < t.perPiece <==> ChunkStart(t, c) < t.pieceLength)
  }

  function Starts(t: Torrent, i: nat): nat { i * t.pieceLength }

  function ChunkStart(t: Torrent, c: nat): nat { c * t.chunkSize }

  lemma SoundIsCounted(t: Torrent)
    requires Sound(t)
    ensures Counted(t)
  {
    forall i: nat ensures i < t.pieces <==> Starts(t, i) < t.length {
      Ceiling(t.length, t.pieceLength, i);
    }
    forall c: nat ensures c < t.perPiece <==> ChunkStart(t, c) < t.pieceLength {
      Ceiling(t.pieceLength, t.chunkSize, c);
    }
    assert ChunkStart(t, 0) == 0;
  }

  datatype Request = Request(index: nat, begin: nat, length: nat)

  // ---- Pieces ------------------------------------------------------------------------------------

  function PieceLength(t: Torrent, i: nat): nat
    requires t.pieceLength > 0
  {
    if i + 1 == t.pieces && t.length % t.pieceLength != 0 then t.length % t.pieceLength else t.pieceLength
  }

  // The stretch of the torrent from the piece's start, cut off at the end.
  function Span(t: Torrent, i: nat): int { Min(t.pieceLength, t.length - Starts(t, i)) }

  /** A piece is as long as its stretch of the torrent. */
  lemma PieceSpan(t: Torrent, i: nat)
    requires Counted(t) && i < t.pieces
    ensures PieceLength(t, i) == Span(t, i) > 0
    ensures i + 1 < t.pieces ==> Span(t, i) == t.pieceLength
  {
    var left := t.length - Starts(t, i);
    assert Starts(t, i + 1) == Starts(t, i) + t.pieceLength;
    if i + 1 == t.pieces {
      if left == t.pieceLength {
        Divided(t.length, t.pieceLength, i + 1, 0);
      } else {
        Divided(t.length, t.pieceLength, i, left);
      }
    }
  }

  // ---- Request indexes ---------------------------------------------------------------------------

  datatype Spec = Spec(begin: nat, length: nat) | Panics

  function ChunkIndexSpec(chunk: nat, pieceLength: nat, chunkSize: nat): Spec {
    var begin := chunk * chunkSize;
    if begin >= pieceLength then Panics else Spec(begin, Min(chunkSize, pieceLength - begin))
  }

  datatype Found = Missing | Some(r: Request)

  function At(t: Torrent, piece: nat, chunk: nat): Found
    requires t.pieceLength > 0
  {
    var spec := ChunkIndexSpec(chunk, PieceLength(t, piece), t.chunkSize);
    if spec.Panics? then Missing else Some(Request(piece, spec.begin, spec.length))
  }

  function ToRequest(t: Torrent, ri: nat): Found
    requires t.pieceLength > 0 && t.perPiece > 0
  {
    At(t, ri / t.perPiece, ri % t.perPiece)
  }

  function FromRequest(t: Torrent, r: Request): nat
    requires t.chunkSize > 0
  {
    r.index * t.perPiece + r.begin / t.chunkSize
  }

  // Index ri names a chunk of the torrent.
  predicate ValidIndex(t: Torrent, ri: nat)
    requires t.pieceLength > 0 && t.perPiece > 0
  {
    ri / t.perPiece < t.pieces && ri % t.perPiece * t.chunkSize < PieceLength(t, ri / t.perPiece)
  }

  // A request as the protocol allows it: a chunk boundary, and as much as is there.
  predicate ValidRequest(t: Torrent, r: Request)
    requires t.pieceLength > 0 && t.chunkSize > 0
  {
    && r.index < t.pieces && r.begin < PieceLength(t, r.index) && r.begin % t.chunkSize == 0
    && r.length == Min(t.chunkSize, PieceLength(t, r.index) - r.begin)
  }

  lemma ValidAt(t: Torrent, i: nat, c: nat)
    requires t.pieceLength > 0 && t.chunkSize > 0 && i < t.pieces && c * t.chunkSize < PieceLength(t, i)
    ensures At(t, i, c).Some? && ValidRequest(t, At(t, i, c).r)
    ensures At(t, i, c).r.index == i && At(t, i, c).r.begin / t.chunkSize == c
  {
    Divided(c * t.chunkSize, t.chunkSize, c, 0);
  }

  lemma FromAt(t: Torrent, i: nat, c: nat)
    requires t.pieceLength > 0 && t.chunkSize > 0 && i < t.pieces && c * t.chunkSize < PieceLength(t, i)
    ensures At(t, i, c).Some? && ValidRequest(t, At(t, i, c).r)
    ensures FromRequest(t, At(t, i, c).r) == i * t.perPiece + c
  {
    ValidAt(t, i, c);
  }

  lemma Recombined(ri: nat, perPiece: nat)
    requires perPiece > 0
    ensures ri / perPiece * perPiece + ri % perPiece == ri
  {
  }

  /** Every chunk index turns into a valid request and back. */
  lemma IndexRoundTrip(t: Torrent, ri: nat)
    requires Sound(t) && ValidIndex(t, ri)
    ensures ToRequest(t, ri).Some? && ValidRequest(t, ToRequest(t, ri).r)
    ensures FromRequest(t, ToRequest(t, ri).r) == ri
  {
    Recombined(ri, t.perPiece);
    FromAt(t, ri / t.perPiece, ri % t.perPiece);
  }

  lemma AtRequest(t: Torrent, r: Request)
    requires t.pieceLength > 0 && t.chunkSize > 0 && ValidRequest(t, r)
    ensures r.begin / t.chunkSize * t.chunkSize == r.begin && At(t, r.index, r.begin / t.chunkSize) == Some(r)
  {
  }

  /** Every valid request turns into a chunk index and back. */
  lemma RequestRoundTrip(t: Torrent, r: Request)
    requires Sound(t) && ValidRequest(t, r)
    ensures ValidIndex(t, FromRequest(t, r)) && ToRequest(t, FromRequest(t, r)) == Some(r)
  {
    SoundIsCounted(t);
    PieceSpan(t, r.index);
    AtRequest(t, r);
    var c := r.begin / t.chunkSize;
    assert ChunkStart(t, c) == r.begin && c < t.perPiece;
    Divided(FromRequest(t, r), t.perPiece, r.index, c);
  }

  // ---- Offsets -----------------------------------------------------------------------------------

  function Begin(t: Torrent, r: Request): nat { Starts(t, r.index) + r.begin }
  function End(t: Torrent, r: Request): nat { Begin(t, r) + r.length }

  function OffsetRequest(t: Torrent, offset: int): Found
    requires t.pieceLength > 0 && t.chunkSize > 0
  {
    if offset < 0 || offset >= t.length then Missing
    else InPiece(t, offset / t.pieceLength, Round(offset % t.pieceLength, t.chunkSize))
  }

  function Round(o: nat, c: nat): nat
    requires c > 0
  {
    o / c * c
  }

  // The request starting at an offset of a piece, no longer than a chunk, the piece and the torrent.
  function InPiece(t: Torrent, index: nat, begin: nat): Found {
    var length := Min(Min(t.chunkSize, t.pieceLength - begin), t.length - Starts(t, index) - begin);
    if length < 0 then Missing else Some(Request(index, begin, length))
  }

  lemma Rounded(o: nat, c: nat)
    requires c > 0
    ensures Round(o, c) <= o < Round(o, c) + c && Round(o, c) % c == 0
  {
    Divided(o / c * c, c, o / c, 0);
  }

  lemma InPieceValid(t: Torrent, i: nat, o: nat, begin: nat)
    requires Counted(t) && Starts(t, i) + o < t.length && o < t.pieceLength
    requires begin <= o < begin + t.chunkSize && begin % t.chunkSize == 0
    ensures InPiece(t, i, begin).Some? && ValidRequest(t, InPiece(t, i, begin).r)
    ensures Begin(t, InPiece(t, i, begin).r) <= Starts(t, i) + o < End(t, InPiece(t, i, begin).r)
  {
    PieceSpan(t, i);
  }

  /** Looking up an offset inside the torrent gives a valid request that contains it. */
  lemma OffsetFinds(t: Torrent, x: nat)
    requires Sound(t) && x < t.length
    ensures OffsetRequest(t, x).Some? && ValidRequest(t, OffsetRequest(t, x).r)
    ensures Begin(t, OffsetRequest(t, x).r) <= x < End(t, OffsetRequest(t, x).r)
  {
    SoundIsCounted(t);
    var i, o := x / t.pieceLength, x % t.pieceLength;
    assert Starts(t, i) + o == x;
    Rounded(o, t.chunkSize);
    InPieceValid(t, i, o, Round(o, t.chunkSize));
  }

  lemma OnePiece(t: Torrent, i: nat, o: nat, j: nat, p: nat)
    requires t.pieceLength > 0 && o < t.pieceLength && p < t.pieceLength && Starts(t, i) + o == Starts(t, j) + p
    ensures i == j && o == p
  {
    Divided(Starts(t, i) + o, t.pieceLength, i, o);
    Divided(Starts(t, j) + p, t.pieceLength, j, p);
  }

  lemma OneChunk(c: nat, a: nat, b: nat, o: nat)
    requires c > 0 && a % c == 0 && b % c == 0 && a <= o < a + c && b <= o < b + c
    ensures a == b
  {
    Divided(o, c, a / c, o - a);
    Divided(o, c, b / c, o - b);
  }

  /** Two valid requests that share a byte are the same: requests partition the torrent. */
  lemma RequestsDisjoint(t: Torrent, a: Request, b: Request, x: nat)
    requires Sound(t) && ValidRequest(t, a) && ValidRequest(t, b)
    requires Begin(t, a) <= x < End(t, a) && Begin(t, b) <= x < End(t, b)
    ensures a == b
  {
    SoundIsCounted(t);
    PieceSpan(t, a.index);
    PieceSpan(t, b.index);
    OnePiece(t, a.index, x - Starts(t, a.index), b.index, x - Starts(t, b.index));
    OneChunk(t.chunkSize, a.begin, b.begin, x - Starts(t, a.index));
  }

  lemma RequestInside(t: Torrent, r: Request)
    requires Sound(t) && ValidRequest(t, r)
    ensures Begin(t, r) < End(t, r) <= t.length
  {
    SoundIsCounted(t);
    PieceSpan(t, r.index);
  }

  /** So the chunk index found for an offset is the only one whose request contains it. */
  lemma OffsetIndex(t: Torrent, x: nat, ri: nat)
    requires Sound(t) && x < t.length && ValidIndex(t, ri)
    ensures OffsetRequest(t, x).Some? && ToRequest(t, ri).Some?
    ensures ri == FromRequest(t, OffsetRequest(t, x).r) <==> Begin(t, ToRequest(t, ri).r) <= x < End(t, ToRequest(t, ri).r)
  {
    SoundIsCounted(t);
    OffsetFinds(t, x);
    IndexRoundTrip(t, ri);
    RequestRoundTrip(t, OffsetRequest(t, x).r);
    if Begin(t, ToRequest(t, ri).r) <= x < End(t, ToRequest(t, ri).r) {
      RequestsDisjoint(t, ToRequest(t, ri).r, OffsetRequest(t, x).r, x);
    }
  }

  // ---- Dirty bytes -------------------------------------------------------------------------------

  function InRange(d: set<nat>, start: nat, end: nat): set<nat> { set x | x in d && start <= x < end }

  function Rank(d: set<nat>, x: nat): nat { |set y | y in d && y <= x| }

  // The bits set in a non-empty range, as the difference of two ranks.
  function RangeCardinality(d: set<nat>, start: nat, end: nat): int
    requires start < end
  {
    Rank(d, end - 1) - if start != 0 then Rank(d, start - 1) else 0
  }

  lemma RanksCount(d: set<nat>, start: nat, end: nat)
    requires start < end
    ensures RangeCardinality(d, start, end) == |InRange(d, start, end)|
  {
    var upTo := set y | y in d && y <= end - 1;
    if start != 0 {
      var before := set y | y in d && y <= start - 1;
      assert upTo == before + InRange(d, start, end) && before !! InRange(d, start, end);
    } else {
      assert upTo == InRange(d, start, end);
    }
  }

  // The length of a piece's chunk.
  function ChunkLength(length: nat, chunkSize: nat, j: nat): int { Min(chunkSize, length - j * chunkSize) }

  function DirtyCount(d: set<nat>, base: nat, k: nat): nat {
    if k == 0 then 0 else DirtyCount(d, base, k - 1) + if base + k - 1 in d then 1 else 0
  }

  // Bytes of the piece's first k chunks that are dirty, or clean.
  function BytesIn(d: set<nat>, base: nat, length: nat, chunkSize: nat, k: nat, dirty: bool): int {
    if k == 0 then 0
    else BytesIn(d, base, length, chunkSize, k - 1, dirty)
         + if (base + k - 1 in d) == dirty then ChunkLength(length, chunkSize, k - 1) else 0
  }

  lemma {:induction false} CountsRange(d: set<nat>, base: nat, k: nat)
    ensures DirtyCount(d, base, k) == |InRange(d, base, base + k)|
  {
    if k == 0 {
      assert InRange(d, base, base) == {};
    } else {
      CountsRange(d, base, k - 1);
      var x := base + k - 1;
      assert InRange(d, base, base + k) == InRange(d, base, x) + if x in d then {x} else {};
    }
  }

  lemma {:induction false} FullChunks(d: set<nat>, base: nat, length: nat, chunkSize: nat, k: nat)
    requires k * chunkSize <= length
    ensures BytesIn(d, base, length, chunkSize, k, true) == DirtyCount(d, base, k) * chunkSize
  {
    if k > 0 {
      assert (k - 1) * chunkSize + chunkSize == k * chunkSize;
      FullChunks(d, base, length, chunkSize, k - 1);
      var n := DirtyCount(d, base, k - 1);
      assert (n + 1) * chunkSize == n * chunkSize + chunkSize;
    }
  }

  lemma {:induction false} DirtyAndClean(d: set<nat>, base: nat, length: nat, chunkSize: nat, k: nat)
    requires k > 0 ==> (k - 1) * chunkSize < length
    ensures BytesIn(d, base, length, chunkSize, k, true) + BytesIn(d, base, length, chunkSize, k, false)
            == Min(length, k * chunkSize)
  {
    if k > 0 {
      assert (k - 1) * chunkSize + chunkSize == k * chunkSize;
      if k > 1 {
        Times(k - 2, k - 1, chunkSize);
      }
      DirtyAndClean(d, base, length, chunkSize, k - 1);
    }
  }

  // As the code counts: full chunks by number, the last one by its own length.
  function NumDirtyBytes(t: Torrent, d: set<nat>, i: nat): int
    requires t.pieceLength > 0 && t.chunkSize > 0 && t.perPiece > 0 && PieceLength(t, i) > 0
  {
    var base, chunks := i * t.perPiece, CeilDiv(PieceLength(t, i), t.chunkSize);
    var dirty := RangeCardinality(d, base, base + t.perPiece);
    if base + chunks - 1 in d
    then (dirty - 1) * t.chunkSize + ChunkLength(PieceLength(t, i), t.chunkSize, chunks - 1)
    else dirty * t.chunkSize
  }

  function PieceChunks(t: Torrent, i: nat): nat
    requires t.pieceLength > 0 && t.chunkSize > 0
  {
    CeilDiv(PieceLength(t, i), t.chunkSize)
  }

  function DirtyBytes(t: Torrent, d: set<nat>, i: nat): int
    requires t.pieceLength > 0 && t.chunkSize > 0
  {
    BytesIn(d, i * t.perPiece, PieceLength(t, i), t.chunkSize, PieceChunks(t, i), true)
  }

  function CleanBytes(t: Torrent, d: set<nat>, i: nat): int
    requires t.pieceLength > 0 && t.chunkSize > 0
  {
    BytesIn(d, i * t.perPiece, PieceLength(t, i), t.chunkSize, PieceChunks(t, i), false)
  }

  // Only real chunks are dirty: none past the end of a short piece.
  ghost predicate RealChunks(t: Torrent, d: set<nat>, i: nat)
    requires t.pieceLength > 0 && t.chunkSize > 0
  {
    forall x <- d :: i * t.perPiece <= x < i * t.perPiece + t.perPiece ==> x < i * t.perPiece + PieceChunks(t, i)
  }

  ghost predicate AllReal(t: Torrent, d: set<nat>)
    requires t.pieceLength > 0 && t.chunkSize > 0
  {
    forall i: nat :: i < t.pieces ==> RealChunks(t, d, i)
  }

  lemma ChunksFit(t: Torrent, i: nat)
    requires Counted(t) && i < t.pieces
    ensures 0 < PieceChunks(t, i) <= t.perPiece
    ensures (PieceChunks(t, i) - 1) * t.chunkSize < PieceLength(t, i) <= PieceChunks(t, i) * t.chunkSize
  {
    PieceSpan(t, i);
    var k := PieceChunks(t, i);
    Ceiling(PieceLength(t, i), t.chunkSize, 0);
    Ceiling(PieceLength(t, i), t.chunkSize, k - 1);
    Ceiling(PieceLength(t, i), t.chunkSize, k);
    assert ChunkStart(t, k - 1) < t.pieceLength && k - 1 < t.perPiece;
  }

  /** Counting full chunks and correcting for the last is the same as adding up chunk by chunk. */
  lemma DirtyBytesExact(t: Torrent, d: set<nat>, i: nat)
    requires Counted(t) && i < t.pieces && RealChunks(t, d, i) && PieceLength(t, i) > 0
    ensures NumDirtyBytes(t, d, i) == DirtyBytes(t, d, i)
    ensures DirtyBytes(t, d, i) + CleanBytes(t, d, i) == PieceLength(t, i)
  {
    var base, k, len := i * t.perPiece, PieceChunks(t, i), PieceLength(t, i);
    ChunksFit(t, i);
    RanksCount(d, base, base + t.perPiece);
    CountsRange(d, base, k);
    assert InRange(d, base, base + t.perPiece) == InRange(d, base, base + k) by {
      RealRange(t, d, i);
    }
    FullChunks(d, base, len, t.chunkSize, k - 1);
    DirtyAndClean(d, base, len, t.chunkSize, k);
    LastChunk(DirtyCount(d, base, k - 1), t.chunkSize);
  }

  lemma LastChunk(n: nat, c: nat)
    ensures (n + 1 - 1) * c == n * c
  {
  }

  lemma RealRange(t: Torrent, d: set<nat>, i: nat)
    requires t.pieceLength > 0 && t.chunkSize > 0 && RealChunks(t, d, i) && PieceChunks(t, i) <= t.perPiece
    ensures InRange(d, i * t.perPiece, i * t.perPiece + t.perPiece)
            == InRange(d, i * t.perPiece, i * t.perPiece + PieceChunks(t, i))
  {
  }

  // ---- Bytes of the whole torrent ----------------------------------------------------------------

  datatype Kind = Clean | Dirty | Complete

  // Bytes of one kind in a piece: a complete piece has only complete bytes.
  function Bytes(t: Torrent, complete: set<nat>, d: set<nat>, i: nat, kind: Kind): int
    requires t.pieceLength > 0 && t.chunkSize > 0
  {
    match kind
    case Clean => if i in complete then 0 else CleanBytes(t, d, i)
    case Dirty => if i in complete then 0 else DirtyBytes(t, d, i)
    case Complete => if i in complete then PieceLength(t, i) else 0
  }

  function Sum(t: Torrent, complete: set<nat>, d: set<nat>, k: nat, kind: Kind): int
    requires t.pieceLength > 0 && t.chunkSize > 0
  {
    if k == 0 then 0 else Sum(t, complete, d, k - 1, kind) + Bytes(t, complete, d, k - 1, kind)
  }

  method BytesLeft(t: Torrent, complete: set<nat>, d: set<nat>) returns (left: int)
    requires Sound(t) && AllReal(t, d)
    ensures left == Sum(t, complete, d, t.pieces, Clean)
  {
    SoundIsCounted(t);
    left := 0;
    for i := 0 to t.pieces
      invariant left == Sum(t, complete, d, i, Clean)
    {
      if i !in complete {
        PieceSpan(t, i);
        DirtyBytesExact(t, d, i);
        left := left + PieceLength(t, i) - NumDirtyBytes(t, d, i);
      }
    }
  }

  lemma PieceSum(t: Torrent, complete: set<nat>, d: set<nat>, i: nat)
    requires Counted(t) && i < t.pieces && RealChunks(t, d, i)
    ensures Bytes(t, complete, d, i, Clean) + Bytes(t, complete, d, i, Dirty) + Bytes(t, complete, d, i, Complete)
            == PieceLength(t, i)
  {
    PieceSpan(t, i);
    DirtyBytesExact(t, d, i);
  }

  lemma {:induction false} SumsUpTo(t: Torrent, complete: set<nat>, d: set<nat>, k: nat)
    requires Counted(t) && k <= t.pieces && AllReal(t, d)
    ensures Sum(t, complete, d, k, Clean) + Sum(t, complete, d, k, Dirty) + Sum(t, complete, d, k, Complete)
            == Min(t.length, Starts(t, k))
  {
    if k > 0 {
      SumsUpTo(t, complete, d, k - 1);
      PieceSpan(t, k - 1);
      PieceSum(t, complete, d, k - 1);
      assert Starts(t, k) == Starts(t, k - 1) + t.pieceLength;
    }
  }

  /** Clean bytes of incomplete pieces, dirty bytes and complete bytes together are the torrent. */
  lemma BytesConserved(t: Torrent, complete: set<nat>, d: set<nat>)
    requires Sound(t) && AllReal(t, d)
    ensures Sum(t, complete, d, t.pieces, Clean) + Sum(t, complete, d, t.pieces, Dirty)
            + Sum(t, complete, d, t.pieces, Complete) == t.length
  {
    SoundIsCounted(t);
    SumsUpTo(t, complete, d, t.pieces);
    assert !(t.pieces < t.pieces);
  }

  // ---- Dirty bytes of a stretch ------------------------------------------------------------------

  // How much of [a, b) lies in [lo, hi).
  function Clip(a: int, b: int, lo: int, hi: int): nat { Max(0, Min(b, hi) - Max(a, lo)) }

  lemma ClipJoins(a: int, m: int, b: int, lo: int, hi: int)
    requires a <= m <= b
    ensures Clip(a, m, lo, hi) + Clip(m, b, lo, hi) == Clip(a, b, lo, hi)
  {
  }

  // Where a piece's chunks lie.
  datatype Grid = Grid(base: nat, start: nat, length: nat, chunkSize: nat, chunks: nat)

  // Where chunk j begins, or the piece ends.
  function Edge(g: Grid, j: nat): nat { g.start + Min(j * g.chunkSize, g.length) }

  // Dirty, or clean, bytes of the piece's first k chunks that lie in [lo, hi).
  function Within(g: Grid, d: set<nat>, k: nat, dirty: bool, lo: int, hi: int): nat {
    if k == 0 then 0
    else Within(g, d, k - 1, dirty, lo, hi)
         + if (g.base + k - 1 in d) == dirty then Clip(Edge(g, k - 1), Edge(g, k), lo, hi) else 0
  }

  lemma EdgesRise(g: Grid, j: nat)
    ensures g.start <= Edge(g, j) <= Edge(g, j + 1) <= g.start + g.length
  {
    assert (j + 1) * g.chunkSize == j * g.chunkSize + g.chunkSize;
  }

  lemma {:induction false} WithinBoth(g: Grid, d: set<nat>, k: nat, lo: int, hi: int)
    ensures Within(g, d, k, true, lo, hi) + Within(g, d, k, false, lo, hi) == Clip(g.start, Edge(g, k), lo, hi)
  {
    if k > 0 {
      WithinBoth(g, d, k - 1, lo, hi);
      EdgesRise(g, k - 1);
      ClipJoins(g.start, Edge(g, k - 1), Edge(g, k), lo, hi);
    }
  }

  lemma ClipSplits(a: int, b: int, lo: int, mid: int, hi: int)
    requires a <= b && lo <= mid <= hi
    ensures Clip(a, b, lo, mid) + Clip(a, b, mid, hi) == Clip(a, b, lo, hi)
  {
  }

  lemma {:induction false} WithinSplits(g: Grid, d: set<nat>, k: nat, dirty: bool, lo: int, mid: int, hi: int)
    requires lo <= mid <= hi
    ensures Within(g, d, k, dirty, lo, mid) + Within(g, d, k, dirty, mid, hi) == Within(g, d, k, dirty, lo, hi)
  {
    if k > 0 {
      WithinSplits(g, d, k - 1, dirty, lo, mid, hi);
      EdgesRise(g, k - 1);
      ClipSplits(Edge(g, k - 1), Edge(g, k), lo, mid, hi);
    }
  }

  lemma {:induction false} WithinAll(g: Grid, d: set<nat>, k: nat, lo: int, hi: int)
    requires lo <= g.start && g.start + g.length <= hi && (k > 0 ==> (k - 1) * g.chunkSize < g.length)
    ensures Within(g, d, k, true, lo, hi) == BytesIn(d, g.base, g.length, g.chunkSize, k, true)
  {
    if k > 0 {
      assert (k - 1) * g.chunkSize + g.chunkSize == k * g.chunkSize;
      if k > 1 {
        Times(k - 2, k - 1, g.chunkSize);
      }
      WithinAll(g, d, k - 1, lo, hi);
      EdgesRise(g, k - 1);
    }
  }

  lemma {:induction false} NothingDirty(g: Grid, k: nat, lo: int, hi: int)
    ensures Within(g, {}, k, true, lo, hi) == 0
  {
    if k > 0 {
      NothingDirty(g, k - 1, lo, hi);
    }
  }

  function GridOf(t: Torrent, i: nat): Grid
    requires t.pieceLength > 0 && t.chunkSize > 0
  {
    Grid(i * t.perPiece, Starts(t, i), PieceLength(t, i), t.chunkSize, PieceChunks(t, i))
  }

  // The piece's dirty, or clean, bytes in [lo, hi).
  function InPieceRange(t: Torrent, d: set<nat>, i: nat, dirty: bool, lo: int, hi: int): nat
    requires t.pieceLength > 0 && t.chunkSize > 0
  {
    Within(GridOf(t, i), d, PieceChunks(t, i), dirty, lo, hi)
  }

  lemma PieceRange(t: Torrent, d: set<nat>, i: nat, lo: int, hi: int)
    requires Counted(t) && i < t.pieces
    ensures InPieceRange(t, d, i, true, lo, hi) + InPieceRange(t, d, i, false, lo, hi)
            == Clip(Starts(t, i), Starts(t, i) + PieceLength(t, i), lo, hi)
    ensures InPieceRange(t, d, i, true, 0, t.length) == DirtyBytes(t, d, i)
  {
    ChunksFit(t, i);
    PieceSpan(t, i);
    var g := GridOf(t, i);
    assert Edge(g, g.chunks) == g.start + g.length;
    WithinBoth(g, d, g.chunks, lo, hi);
    WithinAll(g, d, g.chunks, 0, t.length);
  }

  // ---- Files -------------------------------------------------------------------------------------

  // A file's stretch of the torrent; pieces are all of the usual size here, as the code takes them.
  datatype FileAt = FileAt(offset: nat, length: nat, pieceLength: nat)

  function FirstPiece(f: FileAt): nat
    requires f.pieceLength > 0
  {
    f.offset / f.pieceLength
  }

  function EndPiece(f: FileAt): nat
    requires f.pieceLength > 0
  {
    CeilDiv(f.offset + f.length, f.pieceLength)
  }

  function PieceStart(f: FileAt, i: nat): nat { i * f.pieceLength }

  // What the code counts as left of a piece, given how many of its bytes are dirty.
  function PieceLeft(f: FileAt, i: nat, done: int): int
    requires f.pieceLength > 0
  {
    if i == FirstPiece(f) then
      var beginOffset := f.offset % f.pieceLength;
      f.pieceLength - beginOffset - Max(0, done - beginOffset)
    else if i == EndPiece(f) - 1 then
      var rest := (f.offset + f.length) % f.pieceLength;
      var endSize := if rest == 0 then f.pieceLength else rest;
      endSize - Min(done, endSize)
    else f.pieceLength - done
  }

  function RawLeft(f: FileAt, complete: set<nat>, done: nat -> nat, k: nat): int
    requires f.pieceLength > 0
    decreases k
  {
    if k <= FirstPiece(f) then 0
    else RawLeft(f, complete, done, k - 1) + if k - 1 in complete then 0 else PieceLeft(f, k - 1, done(k - 1))
  }

  method FileBytesLeft(f: FileAt, complete: set<nat>, done: nat -> nat) returns (left: int)
    requires f.pieceLength > 0
    ensures left == if f.length == 0 then 0 else Min(RawLeft(f, complete, done, EndPiece(f)), f.length)
  {
    left := 0;
    if f.length == 0 {
      return;
    }
    var i := FirstPiece(f);
    PiecesOf(f);
    while i < EndPiece(f)
      invariant FirstPiece(f) <= i <= EndPiece(f) && left == RawLeft(f, complete, done, i)
    {
      if i !in complete {
        left := left + PieceLeft(f, i, done(i));
      }
      i := i + 1;
    }
    if left > f.length {
      left := f.length;
    }
  }

  lemma PiecesOf(f: FileAt)
    requires f.pieceLength > 0 && f.length > 0
    ensures FirstPiece(f) < EndPiece(f)
    ensures PieceStart(f, FirstPiece(f)) <= f.offset < PieceStart(f, FirstPiece(f)) + f.pieceLength
    ensures f.offset % f.pieceLength == f.offset - PieceStart(f, FirstPiece(f))
    ensures PieceStart(f, EndPiece(f) - 1) < f.offset + f.length <= PieceStart(f, EndPiece(f))
    ensures PieceStart(f, EndPiece(f) - 1) + f.pieceLength == PieceStart(f, EndPiece(f))
  {
    Below(f.offset, f.pieceLength, FirstPiece(f) + 1);
    Below(f.offset, f.pieceLength, FirstPiece(f));
    Ceiling(f.offset + f.length, f.pieceLength, FirstPiece(f));
    Ceiling(f.offset + f.length, f.pieceLength, EndPiece(f));
    Ceiling(f.offset + f.length, f.pieceLength, EndPiece(f) - 1);
  }

  lemma EndSize(f: FileAt, last: nat)
    requires f.pieceLength > 0 && PieceStart(f, last) < f.offset + f.length <= PieceStart(f, last) + f.pieceLength
    ensures var rest := (f.offset + f.length) % f.pieceLength;
            (if rest == 0 then f.pieceLength else rest) == f.offset + f.length - PieceStart(f, last)
  {
    var size := f.offset + f.length - PieceStart(f, last);
    if size == f.pieceLength {
      Divided(f.offset + f.length, f.pieceLength, last + 1, 0);
    } else {
      Divided(f.offset + f.length, f.pieceLength, last, size);
    }
  }

  // ---- What a file has left, exactly -------------------------------------------------------------

  ghost predicate Lies(t: Torrent, f: FileAt) {
    f.pieceLength == t.pieceLength && f.length > 0 && f.offset + f.length <= t.length
  }

  ghost predicate FileIn(t: Torrent, f: FileAt) { Counted(t) && Lies(t, f) }

  // Dirty bytes of a piece before, in and after the file, and the file's clean bytes there.
  function DirtyBefore(t: Torrent, d: set<nat>, f: FileAt, i: nat): nat
    requires t.pieceLength > 0 && t.chunkSize > 0
  {
    InPieceRange(t, d, i, true, 0, f.offset)
  }

  function DirtyOwn(t: Torrent, d: set<nat>, f: FileAt, i: nat): nat
    requires t.pieceLength > 0 && t.chunkSize > 0
  {
    InPieceRange(t, d, i, true, f.offset, f.offset + f.length)
  }

  function DirtyAfter(t: Torrent, d: set<nat>, f: FileAt, i: nat): nat
    requires t.pieceLength > 0 && t.chunkSize > 0
  {
    InPieceRange(t, d, i, true, f.offset + f.length, t.length)
  }

  function CleanOwn(t: Torrent, d: set<nat>, f: FileAt, i: nat): nat
    requires t.pieceLength > 0 && t.chunkSize > 0
  {
    InPieceRange(t, d, i, false, f.offset, f.offset + f.length)
  }

  // The file's clean bytes in incomplete pieces: what is really left of it.
  function TrueLeft(t: Torrent, d: set<nat>, f: FileAt, complete: set<nat>, k: nat): nat
    requires t.pieceLength > 0 && t.chunkSize > 0 && f.pieceLength > 0
    decreases k
  {
    if k <= FirstPiece(f) then 0
    else TrueLeft(t, d, f, complete, k - 1) + if k - 1 in complete then 0 else CleanOwn(t, d, f, k - 1)
  }

  // The room around the file in a piece of the usual size.
  function RoomBefore(f: FileAt): int
    requires f.pieceLength > 0
  {
    f.offset - PieceStart(f, FirstPiece(f))
  }

  function RoomAfter(f: FileAt): int
    requires f.pieceLength > 0
  {
    PieceStart(f, EndPiece(f)) - (f.offset + f.length)
  }

  predicate OnePieceFile(f: FileAt)
    requires f.pieceLength > 0
  {
    FirstPiece(f) + 1 == EndPiece(f)
  }

  // Bytes of the file counted as left although dirty: as many as there is clean room beside them.
  function Overcount(t: Torrent, d: set<nat>, f: FileAt, complete: set<nat>): int
    requires t.pieceLength > 0 && t.chunkSize > 0 && f.pieceLength > 0
  {
    var i := FirstPiece(f);
    if i in complete then 0
    else
      var room := RoomBefore(f) - DirtyBefore(t, d, f, i);
      Min(DirtyOwn(t, d, f, i), if OnePieceFile(f) then room + RoomAfter(f) - DirtyAfter(t, d, f, i) else room)
  }

  // Bytes of the file counted as done although clean: as many as are dirty after it in its last piece.
  function Undercount(t: Torrent, d: set<nat>, f: FileAt, complete: set<nat>): int
    requires t.pieceLength > 0 && t.chunkSize > 0 && f.pieceLength > 0
  {
    var i: int := EndPiece(f) - 1;
    if OnePieceFile(f) || i < 0 || i in complete then 0 else Min(DirtyAfter(t, d, f, i), CleanOwn(t, d, f, i))
  }

  lemma FilePieceBytes(t: Torrent, d: set<nat>, f: FileAt, i: nat)
    requires FileIn(t, f) && i < t.pieces
    ensures DirtyBytes(t, d, i) == DirtyBefore(t, d, f, i) + DirtyOwn(t, d, f, i) + DirtyAfter(t, d, f, i)
    ensures DirtyOwn(t, d, f, i) + CleanOwn(t, d, f, i)
            == Clip(Starts(t, i), Starts(t, i) + PieceLength(t, i), f.offset, f.offset + f.length)
    ensures DirtyBefore(t, d, f, i) <= Clip(Starts(t, i), Starts(t, i) + PieceLength(t, i), 0, f.offset)
    ensures DirtyAfter(t, d, f, i)
            <= Clip(Starts(t, i), Starts(t, i) + PieceLength(t, i), f.offset + f.length, t.length)
  {
    PieceRange(t, d, i, f.offset, f.offset + f.length);
    PieceRange(t, d, i, 0, f.offset);
    PieceRange(t, d, i, f.offset + f.length, t.length);
    var g := GridOf(t, i);
    WithinSplits(g, d, g.chunks, true, 0, f.offset, t.length);
    WithinSplits(g, d, g.chunks, true, f.offset, f.offset + f.length, t.length);
  }

  // The file's last piece exists, and every piece before it is of the usual length.
  lemma FilePieceLength(t: Torrent, f: FileAt, i: nat)
    requires FileIn(t, f) && FirstPiece(f) <= i < EndPiece(f)
    ensures i < t.pieces && Starts(t, i) == PieceStart(f, i) && PieceLength(t, i) <= t.pieceLength
    ensures i + 1 < EndPiece(f) ==> PieceLength(t, i) == t.pieceLength
    ensures i + 1 == EndPiece(f) ==> f.offset + f.length <= Starts(t, i) + PieceLength(t, i)
    ensures Starts(t, i) + PieceLength(t, i) <= t.length
  {
    PiecesOf(f);
    Times(i, EndPiece(f) - 1, f.pieceLength);
    assert Starts(t, i) == PieceStart(f, i);
    PieceSpan(t, i);
    if i + 1 < EndPiece(f) {
      Times(i + 1, EndPiece(f) - 1, f.pieceLength);
      assert Starts(t, i + 1) == PieceStart(f, i + 1);
    }
  }

  /** A file inside one piece: the count is off by its dirty bytes, up to the clean room beside it. */
  lemma OnePieceCount(t: Torrent, d: set<nat>, f: FileAt)
    requires FileIn(t, f) && OnePieceFile(f)
    ensures var i := FirstPiece(f);
            Min(PieceLeft(f, i, DirtyBytes(t, d, i)), f.length)
            == CleanOwn(t, d, f, i)
               + Min(DirtyOwn(t, d, f, i),
                     RoomBefore(f) - DirtyBefore(t, d, f, i) + RoomAfter(f) - DirtyAfter(t, d, f, i))
  {
    var i := FirstPiece(f);
    PiecesOf(f);
    FilePieceLength(t, f, i);
    FilePieceBytes(t, d, f, i);
  }

  lemma FirstRule(f: FileAt, before: nat, own: nat)
    requires f.pieceLength > 0 && f.length > 0 && before <= RoomBefore(f)
    ensures PieceLeft(f, FirstPiece(f), before + own)
            == f.pieceLength - RoomBefore(f) - own + Min(own, RoomBefore(f) - before)
  {
    PiecesOf(f);
  }

  // The first of several pieces reaches to its end.
  lemma FirstCount(t: Torrent, d: set<nat>, f: FileAt)
    requires FileIn(t, f) && FirstPiece(f) + 1 < EndPiece(f)
    ensures var i := FirstPiece(f);
            PieceLeft(f, i, DirtyBytes(t, d, i))
            == CleanOwn(t, d, f, i) + Min(DirtyOwn(t, d, f, i), RoomBefore(f) - DirtyBefore(t, d, f, i))
  {
    var i := FirstPiece(f);
    FilePieceLength(t, f, i);
    FilePieceBytes(t, d, f, i);
    FirstReaches(f);
    FirstRule(f, DirtyBefore(t, d, f, i), DirtyOwn(t, d, f, i));
  }

  lemma FirstReaches(f: FileAt)
    requires f.pieceLength > 0 && f.length > 0 && FirstPiece(f) + 1 < EndPiece(f)
    ensures 0 <= RoomBefore(f) < f.pieceLength
    ensures PieceStart(f, FirstPiece(f)) + f.pieceLength < f.offset + f.length
  {
    PiecesOf(f);
    Times(FirstPiece(f) + 1, EndPiece(f) - 1, f.pieceLength);
    assert PieceStart(f, FirstPiece(f) + 1) == PieceStart(f, FirstPiece(f)) + f.pieceLength;
  }

  // The file starts before the later pieces.
  lemma LaterPieces(f: FileAt, i: nat)
    requires f.pieceLength > 0 && f.length > 0 && FirstPiece(f) < i < EndPiece(f)
    ensures f.offset < PieceStart(f, i)
    ensures i + 1 < EndPiece(f) ==> PieceStart(f, i) + f.pieceLength < f.offset + f.length
  {
    PiecesOf(f);
    Times(FirstPiece(f) + 1, i, f.pieceLength);
    assert PieceStart(f, FirstPiece(f) + 1) == PieceStart(f, FirstPiece(f)) + f.pieceLength;
    if i + 1 < EndPiece(f) {
      Times(i + 1, EndPiece(f) - 1, f.pieceLength);
      assert PieceStart(f, i + 1) == PieceStart(f, i) + f.pieceLength;
    }
  }

  lemma LastCount(t: Torrent, d: set<nat>, f: FileAt)
    requires FileIn(t, f) && FirstPiece(f) + 1 < EndPiece(f)
    ensures var i := EndPiece(f) - 1;
            PieceLeft(f, i, DirtyBytes(t, d, i))
            == CleanOwn(t, d, f, i) - Min(DirtyAfter(t, d, f, i), CleanOwn(t, d, f, i))
  {
    var i := EndPiece(f) - 1;
    PiecesOf(f);
    LaterPieces(f, i);
    FilePieceLength(t, f, i);
    FilePieceBytes(t, d, f, i);
    EndSize(f, i);
  }

  lemma MiddleCount(t: Torrent, d: set<nat>, f: FileAt, i: nat)
    requires FileIn(t, f) && FirstPiece(f) < i < EndPiece(f) - 1
    ensures PieceLeft(f, i, DirtyBytes(t, d, i)) == CleanOwn(t, d, f, i)
  {
    LaterPieces(f, i);
    FilePieceLength(t, f, i);
    FilePieceBytes(t, d, f, i);
  }

  // By how much a piece of a file over several pieces is miscounted.
  function PieceError(t: Torrent, d: set<nat>, f: FileAt, i: nat): int
    requires t.pieceLength > 0 && t.chunkSize > 0 && f.pieceLength > 0
  {
    if i == FirstPiece(f) then Min(DirtyOwn(t, d, f, i), RoomBefore(f) - DirtyBefore(t, d, f, i))
    else if i + 1 == EndPiece(f) then -Min(DirtyAfter(t, d, f, i), CleanOwn(t, d, f, i))
    else 0
  }

  /** A file over several pieces: the first is overcounted, the last undercounted, the rest exact. */
  lemma PieceCount(t: Torrent, d: set<nat>, f: FileAt, i: nat)
    requires FileIn(t, f) && !OnePieceFile(f) && FirstPiece(f) <= i < EndPiece(f)
    ensures PieceLeft(f, i, DirtyBytes(t, d, i)) == CleanOwn(t, d, f, i) + PieceError(t, d, f, i)
  {
    if i == FirstPiece(f) {
      FirstCount(t, d, f);
    } else if i + 1 == EndPiece(f) {
      LastCount(t, d, f);
    } else {
      MiddleCount(t, d, f, i);
    }
  }

  // The counts handed to the rule are the pieces' dirty bytes.
  ghost predicate Reports(t: Torrent, d: set<nat>, done: nat -> nat) {
    t.pieceLength > 0 && t.chunkSize > 0 && forall i: nat :: i < t.pieces ==> done(i) == DirtyBytes(t, d, i)
  }

  function Errors(t: Torrent, d: set<nat>, f: FileAt, complete: set<nat>, k: nat): int
    requires t.pieceLength > 0 && t.chunkSize > 0 && f.pieceLength > 0
    decreases k
  {
    if k <= FirstPiece(f) then 0
    else Errors(t, d, f, complete, k - 1) + if k - 1 in complete then 0 else PieceError(t, d, f, k - 1)
  }

  lemma {:induction false} CountUpTo(t: Torrent, d: set<nat>, f: FileAt, complete: set<nat>, done: nat -> nat, k: nat)
    requires FileIn(t, f) && !OnePieceFile(f) && Reports(t, d, done) && k <= EndPiece(f)
    ensures RawLeft(f, complete, done, k) == TrueLeft(t, d, f, complete, k) + Errors(t, d, f, complete, k)
    decreases k
  {
    if k > FirstPiece(f) {
      CountUpTo(t, d, f, complete, done, k - 1);
      PieceCount(t, d, f, k - 1);
      FilePieceLength(t, f, k - 1);
    }
  }

  lemma {:induction false} ErrorsUpTo(t: Torrent, d: set<nat>, f: FileAt, complete: set<nat>, k: nat)
    requires FileIn(t, f) && !OnePieceFile(f) && FirstPiece(f) < k < EndPiece(f)
    ensures Errors(t, d, f, complete, k) == Overcount(t, d, f, complete)
    decreases k
  {
    if k - 1 > FirstPiece(f) {
      ErrorsUpTo(t, d, f, complete, k - 1);
    } else {
      assert Errors(t, d, f, complete, k - 1) == 0;
    }
  }

  // How far into the file the first k pieces reach.
  function Reach(f: FileAt, k: nat): int { Min(PieceStart(f, k), f.offset + f.length) - f.offset }

  lemma ReachOf(f: FileAt, k: nat)
    requires f.pieceLength > 0 && f.length > 0 && FirstPiece(f) <= k < EndPiece(f)
    ensures PieceStart(f, k + 1) == PieceStart(f, k) + f.pieceLength && PieceStart(f, k) < f.offset + f.length
    ensures k > FirstPiece(f) ==> f.offset < PieceStart(f, k)
  {
    PiecesOf(f);
    Times(k, EndPiece(f) - 1, f.pieceLength);
    if k > FirstPiece(f) {
      Times(FirstPiece(f) + 1, k, f.pieceLength);
      assert PieceStart(f, FirstPiece(f) + 1) == PieceStart(f, FirstPiece(f)) + f.pieceLength;
    }
  }

  // The file's bytes in one piece.
  lemma OwnBytes(t: Torrent, d: set<nat>, f: FileAt, i: nat)
    requires FileIn(t, f) && FirstPiece(f) <= i < EndPiece(f)
    ensures CleanOwn(t, d, f, i) + DirtyOwn(t, d, f, i) <= Reach(f, i + 1) - if i > FirstPiece(f) then Reach(f, i) else 0
  {
    FilePieceLength(t, f, i);
    FilePieceBytes(t, d, f, i);
    ReachOf(f, i);
  }

  // What is left and what is overcounted together fit the file.
  lemma {:induction false} LeftFits(t: Torrent, d: set<nat>, f: FileAt, complete: set<nat>, k: nat)
    requires FileIn(t, f) && FirstPiece(f) < k <= EndPiece(f)
    ensures TrueLeft(t, d, f, complete, k) + (if FirstPiece(f) in complete then 0 else DirtyOwn(t, d, f, FirstPiece(f)))
            <= Reach(f, k)
    decreases k
  {
    OwnBytes(t, d, f, k - 1);
    if k - 1 > FirstPiece(f) {
      LeftFits(t, d, f, complete, k - 1);
    } else {
      assert TrueLeft(t, d, f, complete, k - 1) == 0;
    }
  }

  /** For any dirty chunks and complete pieces: what the code reports is what is really left, plus the
      overcount in the first piece, less the undercount in the last. So it is exact if and only if the
      two are equal. */
  lemma FileBytesLeftError(t: Torrent, d: set<nat>, f: FileAt, complete: set<nat>, done: nat -> nat)
    requires Sound(t) && Lies(t, f) && Reports(t, d, done)
    ensures Min(RawLeft(f, complete, done, EndPiece(f)), f.length)
            == TrueLeft(t, d, f, complete, EndPiece(f)) + Overcount(t, d, f, complete) - Undercount(t, d, f, complete)
    ensures Min(RawLeft(f, complete, done, EndPiece(f)), f.length) == TrueLeft(t, d, f, complete, EndPiece(f))
            <==> Overcount(t, d, f, complete) == Undercount(t, d, f, complete)
  {
    SoundIsCounted(t);
    PiecesOf(f);
    var first := FirstPiece(f);
    if OnePieceFile(f) {
      FilePieceLength(t, f, first);
      OnePieceCount(t, d, f);
      assert RawLeft(f, complete, done, first) == 0 && TrueLeft(t, d, f, complete, first) == 0;
    } else {
      CountUpTo(t, d, f, complete, done, EndPiece(f));
      ErrorsUpTo(t, d, f, complete, EndPiece(f) - 1);
      LeftFits(t, d, f, complete, EndPiece(f));
    }
  }

  // The file's bytes in incomplete pieces among the first k.
  function MissingBytes(f: FileAt, complete: set<nat>, k: nat): nat
    requires f.pieceLength > 0
    decreases k
  {
    if k <= FirstPiece(f) then 0
    else MissingBytes(f, complete, k - 1)
         + if k - 1 in complete then 0
           else Clip(PieceStart(f, k - 1), PieceStart(f, k - 1) + f.pieceLength, f.offset, f.offset + f.length)
  }

  lemma {:induction false} CleanIsMissing(t: Torrent, f: FileAt, complete: set<nat>, k: nat)
    requires FileIn(t, f) && k <= EndPiece(f)
    ensures TrueLeft(t, {}, f, complete, k) == MissingBytes(f, complete, k)
    decreases k
  {
    if k > FirstPiece(f) {
      CleanIsMissing(t, f, complete, k - 1);
      CleanPiece(t, f, k - 1);
    }
  }

  lemma CleanPiece(t: Torrent, f: FileAt, i: nat)
    requires FileIn(t, f) && FirstPiece(f) <= i < EndPiece(f)
    ensures CleanOwn(t, {}, f, i) == Clip(PieceStart(f, i), PieceStart(f, i) + f.pieceLength, f.offset, f.offset + f.length)
  {
    FilePieceLength(t, f, i);
    FilePieceBytes(t, {}, f, i);
    NothingDirty(GridOf(t, i), PieceChunks(t, i), f.offset, f.offset + f.length);
  }

  /** With no dirty chunks, the bytes left of a file are exactly its bytes in incomplete pieces. */
  lemma FileBytesLeftExact(t: Torrent, f: FileAt, complete: set<nat>, done: nat -> nat)
    requires Sound(t) && Lies(t, f) && Reports(t, {}, done)
    ensures Min(RawLeft(f, complete, done, EndPiece(f)), f.length) == MissingBytes(f, complete, EndPiece(f))
  {
    SoundIsCounted(t);
    FileBytesLeftError(t, {}, f, complete, done);
    CleanIsMissing(t, f, complete, EndPiece(f));
    NoError(t, f, complete);
  }

  lemma NoError(t: Torrent, f: FileAt, complete: set<nat>)
    requires FileIn(t, f)
    ensures Overcount(t, {}, f, complete) == 0 && Undercount(t, {}, f, complete) == 0
  {
    PiecesOf(f);
    var first, last := FirstPiece(f), EndPiece(f) - 1;
    NothingDirty(GridOf(t, first), PieceChunks(t, first), f.offset, f.offset + f.length);
    NothingDirty(GridOf(t, first), PieceChunks(t, first), 0, f.offset);
    NothingDirty(GridOf(t, first), PieceChunks(t, first), f.offset + f.length, t.length);
    NothingDirty(GridOf(t, last), PieceChunks(t, last), f.offset + f.length, t.length);
  }

  // What a file hands to the rule: the dirty bytes of each piece as the piece counts them.
  function DoneBytes(t: Torrent, d: set<nat>): nat -> nat {
    i => if t.pieceLength > 0 && t.chunkSize > 0 && t.perPiece > 0 && PieceLength(t, i) > 0
         then Max(0, NumDirtyBytes(t, d, i)) else 0
  }

  lemma DoneBytesReport(t: Torrent, d: set<nat>)
    requires Counted(t) && AllReal(t, d)
    ensures Reports(t, d, DoneBytes(t, d))
  {
    forall i: nat | i < t.pieces ensures DoneBytes(t, d)(i) == DirtyBytes(t, d, i) {
      PieceSpan(t, i);
      DirtyBytesExact(t, d, i);
      PieceRange(t, d, i, 0, t.length);
    }
  }

  /** The bytes left of a file as the file reports them, with the exact error. */
  method BytesLeftOfFile(t: Torrent, d: set<nat>, f: FileAt, complete: set<nat>) returns (left: int)
    requires Sound(t) && Lies(t, f) && AllReal(t, d)
    ensures left == TrueLeft(t, d, f, complete, EndPiece(f)) + Overcount(t, d, f, complete) - Undercount(t, d, f, complete)
  {
    SoundIsCounted(t);
    DoneBytesReport(t, d);
    FileBytesLeftError(t, d, f, complete, DoneBytes(t, d));
    left := FileBytesLeft(f, complete, DoneBytes(t, d));
  }

  // One piece of four bytes in two chunks, and a file that is the second chunk, which is dirty.
  ghost predicate SharedPiece(t: Torrent, f: FileAt, d: set<nat>) {
    && t.length == 4 && t.pieceLength == 4 && t.chunkSize == 2 && t.pieces == 1 && t.perPiece == 2
    && f.offset == 2 && f.length == 2 && f.pieceLength == 4 && d == {1}
  }

  lemma SharedIsFile(t: Torrent, f: FileAt, d: set<nat>)
    requires SharedPiece(t, f, d)
    ensures Sound(t) && Lies(t, f)
    ensures FirstPiece(f) == 0 && EndPiece(f) == 1 && RoomBefore(f) == 2 && RoomAfter(f) == 0
  {
  }

  lemma SecondChunk(g: Grid, d: set<nat>, dirty: bool, lo: int, hi: int)
    requires g.base == 0 && g.start == 0 && g.length == 4 && g.chunkSize == 2 && d == {1}
    ensures Within(g, d, 2, dirty, lo, hi) == if dirty then Clip(2, 4, lo, hi) else Clip(0, 2, lo, hi)
  {
    assert Within(g, d, 0, dirty, lo, hi) == 0;
    assert Within(g, d, 1, dirty, lo, hi) == if dirty then 0 else Clip(0, 2, lo, hi);
  }

  lemma SharedGrid(t: Torrent, f: FileAt, d: set<nat>)
    requires SharedPiece(t, f, d)
    ensures GridOf(t, 0) == Grid(0, 0, 4, 2, 2) && PieceChunks(t, 0) == 2
  {
  }

  lemma SecondRange(t: Torrent, f: FileAt, d: set<nat>, dirty: bool, lo: int, hi: int)
    requires SharedPiece(t, f, d)
    ensures InPieceRange(t, d, 0, dirty, lo, hi) == if dirty then Clip(2, 4, lo, hi) else Clip(0, 2, lo, hi)
  {
    SharedGrid(t, f, d);
    SecondChunk(GridOf(t, 0), d, dirty, lo, hi);
  }

  lemma SecondFileDirty(t: Torrent, f: FileAt, d: set<nat>)
    requires SharedPiece(t, f, d)
    ensures DirtyOwn(t, d, f, 0) == 2
  {
    SecondRange(t, f, d, true, f.offset, f.offset + f.length);
  }

  lemma SecondFileClean(t: Torrent, f: FileAt, d: set<nat>)
    requires SharedPiece(t, f, d)
    ensures CleanOwn(t, d, f, 0) == 0
  {
    SecondRange(t, f, d, false, f.offset, f.offset + f.length);
  }

  lemma SecondFileBeside(t: Torrent, f: FileAt, d: set<nat>)
    requires SharedPiece(t, f, d)
    ensures DirtyBefore(t, d, f, 0) == 0 && DirtyAfter(t, d, f, 0) == 0
  {
    SecondRange(t, f, d, true, 0, f.offset);
    SecondRange(t, f, d, true, f.offset + f.length, t.length);
  }

  // A file of two bytes at the end of the first piece, all dirty, with two clean bytes before it.
  ghost predicate AtTheEnd(t: Torrent, f: FileAt) {
    Sound(t) && Lies(t, f) && FirstPiece(f) == 0 && EndPiece(f) == 1 && RoomBefore(f) == 2 && RoomAfter(f) == 0
  }

  ghost predicate AllDirty(t: Torrent, f: FileAt, d: set<nat>)
    requires t.pieceLength > 0 && t.chunkSize > 0
  {
    && DirtyOwn(t, d, f, 0) == 2 && CleanOwn(t, d, f, 0) == 0
    && DirtyBefore(t, d, f, 0) == 0 && DirtyAfter(t, d, f, 0) == 0
  }

  lemma SharedIsAtTheEnd(t: Torrent, f: FileAt, d: set<nat>)
    requires SharedPiece(t, f, d)
    ensures AtTheEnd(t, f)
  {
    SharedIsFile(t, f, d);
  }

  lemma SharedIsReal(t: Torrent, f: FileAt, d: set<nat>)
    requires SharedPiece(t, f, d)
    ensures AllReal(t, d)
  {
    SharedGrid(t, f, d);
  }

  lemma SharedIsAllDirty(t: Torrent, f: FileAt, d: set<nat>)
    requires SharedPiece(t, f, d)
    ensures AllDirty(t, f, d)
  {
    SecondFileDirty(t, f, d);
    SecondFileClean(t, f, d);
    SecondFileBeside(t, f, d);
  }

  method LeftOfHidden(t: Torrent, f: FileAt, d: set<nat>) returns (left: int)
    requires AtTheEnd(t, f) && AllReal(t, d) && AllDirty(t, f, d)
    ensures TrueLeft(t, d, f, {}, EndPiece(f)) == 0 && left == 2
  {
    assert TrueLeft(t, d, f, {}, 0) == 0;
    left := BytesLeftOfFile(t, d, f, {});
  }

  /** It cannot always be exact: with the file's own chunk dirty nothing is left of it, and two bytes
      are reported, because the dirty bytes are taken to lie before it. */
  method DirtyBytesMiscounted(t: Torrent, f: FileAt, d: set<nat>) returns (left: int)
    requires SharedPiece(t, f, d)
    ensures TrueLeft(t, d, f, {}, EndPiece(f)) == 0 && left == 2
  {
    SharedIsAtTheEnd(t, f, d);
    SharedIsReal(t, f, d);
    SharedIsAllDirty(t, f, d);
    left := LeftOfHidden(t, f, d);
  }

  // ---- Unset bits --------------------------------------------------------------------------------

  ghost predicate Rising(s: seq<nat>) { forall i, j :: 0 <= i < j < |s| ==> s[i] < s[j] }

  /** Walking the set bits from the start of a range yields exactly the bits not set, in order. */
  method UnsetInRange(bits: seq<nat>, start: nat, end: nat) returns (out: seq<nat>)
    requires Rising(bits)
    ensures Rising(out) && forall x: nat :: x in out <==> start <= x < end && x !in bits
  {
    out := [];
    var at := 0;
    while at < |bits| && bits[at] < start
      invariant 0 <= at <= |bits| && forall j :: 0 <= j < at ==> bits[j] < start
    {
      at := at + 1;
    }
    var next := start;
    while at < |bits| && bits[at] < end
      invariant 0 <= at <= |bits| && start <= next
      invariant next <= end || next == start
      invariant Rising(out) && forall x: nat :: x in out <==> start <= x < next && x !in bits
      invariant forall j :: 0 <= j < at ==> bits[j] < next
      invariant forall j :: at <= j < |bits| ==> next <= bits[j]
    {
      out := Through(out, next, bits[at], bits);
      next := bits[at] + 1;
      at := at + 1;
    }
    out := Through(out, next, end, bits);
  }

  // Appends a stretch that has no set bit.
  method Through(out: seq<nat>, from: nat, to: nat, ghost bits: seq<nat>) returns (more: seq<nat>)
    requires Rising(out) && (forall x <- out :: x < from) && forall x <- bits :: !(from <= x < to)
    ensures Rising(more) && forall x: nat :: x in more <==> x in out || from <= x < to
  {
    more := out;
    var i := from;
    while i < to
      invariant from <= i && (i <= to || i == from)
      invariant Rising(more) && (forall x <- more :: x < i) && forall x: nat :: x in more <==> x in out || from <= x < i
    {
      assert forall k :: 0 <= k < |more| ==> more[k] in more;
      more := more + [i];
      i := i + 1;
    }
  }

  // ---- The layout of `Lifecycle` -----------------------------------------------------------------

  function IndexBound(t: Torrent): nat { t.pieces * t.perPiece }

  function PieceOf(t: Torrent, ri: nat): nat
    requires t.perPiece > 0
  {
    ri / t.perPiece
  }

  function RegularLayout(t: Torrent): L.Layout
    requires t.pieceLength > 0 && t.perPiece > 0
  {
    L.Layout(t.pieces, map ri: nat | ri < IndexBound(t) && ValidIndex(t, ri) :: PieceOf(t, ri))
  }

  /** Chunk arithmetic gives a layout in the sense of `Lifecycle`: every chunk in a piece, no piece
      without chunks. */
  lemma RegularLayoutSound(t: Torrent)
    requires Sound(t)
    ensures L.Sound(RegularLayout(t))
    ensures forall ri: nat :: L.IsChunk(RegularLayout(t), ri) <==> ValidIndex(t, ri)
  {
    SoundIsCounted(t);
    var l := RegularLayout(t);
    forall ri: nat ensures L.IsChunk(l, ri) <==> ValidIndex(t, ri) {
      Below(ri, t.perPiece, t.pieces);
    }
    forall i: nat | i < l.pieces ensures L.ChunksOf(l, i) != {} {
      FirstChunk(t, i);
      assert i * t.perPiece in L.ChunksOf(l, i);
    }
  }

  // The first chunk of a piece.
  lemma FirstChunk(t: Torrent, i: nat)
    requires Counted(t) && i < t.pieces
    ensures ValidIndex(t, i * t.perPiece) && PieceOf(t, i * t.perPiece) == i
  {
    PieceSpan(t, i);
    Divided(i * t.perPiece, t.perPiece, i, 0);
  }
}
