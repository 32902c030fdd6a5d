/**
 * The life of a torrent's pieces: chunks arrive and are written out with the lock released, full
 * pieces are queued and hashed, results are marked in storage with the lock released, and completion
 * can also change under us. Requests and hashing are the components of `Requests` and `Hashing`; this
 * module adds the chunk state and the interleavings between them.
 */
module Lifecycle {
  import opened Basics
  import R = Requests
  import H = Hashing
  import P = Planning

  type PeerId = R.PeerId

  // Which piece each chunk of the torrent belongs to.
  datatype Layout = Layout(pieces: nat, of: map<nat, nat>)

  predicate IsChunk(l: Layout, r: nat) { r in l.of }

  function PieceOf(l: Layout, r: nat): nat { if r in l.of then l.of[r] else l.pieces }

  function ChunksOf(l: Layout, i: nat): set<nat> { set r | r in l.of && l.of[r] == i }

  ghost predicate Sound(l: Layout) {
    && (forall r <- l.of :: l.of[r] < l.pieces)
    && (forall i: nat | i < l.pieces :: ChunksOf(l, i) != {})
  }

  datatype Completion = Unknown | Known(complete: bool)

  datatype State = State(
    layout: Layout,
    swarm: R.Swarm,
    hash: H.State,
    me: H.TorrentId,
    dirty: set<nat>,
    completion: map<nat, Completion>,
    pendingWrites: map<nat, nat>,
    // The chunk each connection is writing out right now.
    writing: map<PeerId, nat>)

  datatype Outcome = Running(s: State) | Panicked

  function Cached(s: State, i: nat): Completion { if i in s.completion then s.completion[i] else Unknown }
  predicate Complete(s: State, i: nat) { Cached(s, i) == Known(true) }
  function Pending(s: State, i: nat): nat { if i in s.pendingWrites then s.pendingWrites[i] else 0 }
  function Key(s: State, i: nat): H.Piece { H.Piece(s.me, i) }
  predicate Closed(s: State) { s.me in s.hash.closed }

  // Queued for hashing, being hashed, or having its result marked.
  predicate InPipeline(s: State, i: nat) {
    Key(s, i) in s.hash.queued || Key(s, i) in s.hash.hashing || Key(s, i) in s.hash.marking
  }

  predicate AllDirty(s: State, i: nat) { ChunksOf(s.layout, i) <= s.dirty }

  function PendAll(s: State, i: nat): State
  {
    s.(dirty := set r | r in s.dirty && PieceOf(s.layout, r) != i)
  }

  // ---- Steps: one per critical section -----------------------------------------------------------

  predicate Wanted(s: State, r: nat) { !Complete(s, PieceOf(s.layout, r)) && r !in s.dirty }

  // A chunk arrives. If it is plausible and wanted it is dirty from now on and goes to be written.
  function ReceiveBegin(s: State, p: PeerId, r: nat): Outcome
    requires p in s.swarm.peers
  {
    Accept(s, p, r, R.Count(s.swarm.peers[p], r) > 0, R.ReceiveChunk(s.swarm, p, r, Wanted(s, r)))
  }

  function Accept(s: State, p: PeerId, r: nat, plausible: bool, o: R.Outcome): Outcome {
    var i := PieceOf(s.layout, r);
    if o.Panicked? then Panicked
    else if !plausible || !Wanted(s, r) then Running(s.(swarm := o.s))
    else Running(s.(swarm := o.s, dirty := s.dirty + {r},
                    pendingWrites := s.pendingWrites[i := Pending(s, i) + 1], writing := s.writing[p := r]))
  }

  function WriteDone(s: State, p: PeerId, ok: bool): Outcome
    requires p in s.writing
  {
    var r := s.writing[p];
    var i := PieceOf(s.layout, r);
    if Pending(s, i) == 0 then Panicked
    else
      var s1 := s.(pendingWrites := s.pendingWrites[i := Pending(s, i) - 1], writing := s.writing - {p});
      if !ok then Running(s1.(dirty := s1.dirty - {r}))
      else if AllDirty(s1, i) && Pending(s1, i) == 0 then Running(s1.(hash := H.Queue(s1.hash, Key(s1, i))))
      else Running(s1)
  }

  function OnIncomplete(s: State, i: nat): State
  {
    if AllDirty(s, i) then PendAll(s, i) else s
  }

  function OnCompleted(s: State, i: nat): State
  {
    PendAll(s, i).(swarm := R.CancelSet(s.swarm, set r | r in s.swarm.owner && PieceOf(s.layout, r) == i))
  }

  function SetCompletion(s: State, i: nat, c: Completion): State
  {
    var t := s.(completion := s.completion[i := c]);
    if Cached(s, i) == c then t
    else if c == Known(true) then OnCompleted(t, i)
    else OnIncomplete(t, i)
  }

  // The lock is held again after storage was told the result.
  function Marked(s: State, i: nat, passed: bool): State
  {
    if Closed(s) then s
    else if passed then SetCompletion(PendAll(s, i), i, Known(true))
    else SetCompletion(OnIncomplete(s, i), i, Known(false))
  }

  // ---- Planning ----------------------------------------------------------------------------------

  // What planning for a connection reads besides the state: the pieces the request order offers within
  // the storage limits, those something wants, those whose hash is known, and those the peer has.
  datatype Inputs = Inputs(
    offered: set<nat>, wanted: set<nat>, hashes: set<nat>, disallowed: bool, peerHas: set<nat>)

  predicate Ignored(s: State, x: Inputs, i: nat) {
    || !Cached(s, i).Known?
    || Key(s, i) in s.hash.hashing || Key(s, i) in s.hash.marking || i !in x.hashes || x.disallowed
    || Complete(s, i)
    || Key(s, i) in s.hash.queued
  }

  predicate Considered(s: State, x: Inputs, i: nat) {
    i in x.offered && !Ignored(s, x, i) && i in x.wanted && i in x.peerHas
  }

  predicate CanAsk(c: R.Conn, r: nat) {
    (r in c.allowedFast || !c.peerChoking || r in c.requests) && r !in c.cancelled
  }

  // The chunks the connection would best be asked for, whoever they are outstanding from now.
  function Desired(s: State, x: Inputs, p: PeerId): set<nat>
    requires p in s.swarm.peers
  {
    if Closed(s) || x.disallowed then {}
    else set r | r in s.layout.of && Considered(s, x, s.layout.of[r]) && r !in s.dirty && CanAsk(s.swarm.peers[p], r)
  }

  // Asking for any other chunk panics.
  function Ready(s: State, x: Inputs): set<nat> {
    set r | r in s.layout.of && s.layout.of[r] in x.peerHas && !InPipeline(s, s.layout.of[r])
  }

  function UpdateRequests(s: State, x: Inputs, p: PeerId, plan: seq<nat>, reason: P.Reason, limit: int, now: int): Outcome {
    var o := P.Apply(s.swarm, p, plan, P.Terms(Ready(s, x), reason, limit, now));
    if o.Panicked? then Panicked else Running(s.(swarm := o.s))
  }

  datatype Event =
    | Swarm(e: R.Event)
    | Receive(p: PeerId, r: nat)
    | Written(p: PeerId, ok: bool)
    | Update(p: PeerId, x: Inputs, plan: seq<nat>, reason: P.Reason, limit: int, now: int)
    | HashStep(h: H.Event)
    | MarkDone(i: nat, passed: bool, next: set<H.Piece>)
    | StorageCompletion(i: nat, c: Completion)

  /** The guards of each critical section, and what it does. */
  ghost predicate Next(s: State, lim: H.Limits, e: Event, o: Outcome)
  {
    match e
    case Swarm(x) =>
      // Chunks are received and requested through the events below.
      && !x.Chunk? && !x.Take?
      && (x.Collect? ==> x.p !in s.writing)
      && (var q := R.Next(s.swarm, x); o == if q.Panicked? then Panicked else Running(s.(swarm := q.s)))
    case Receive(p, r) =>
      // A connection handles one message at a time, and none once the torrent or it is closed.
      && p in s.swarm.peers && p !in s.writing && IsChunk(s.layout, r) && !Closed(s) && !s.swarm.peers[p].closed
      && o == ReceiveBegin(s, p, r)
    case Written(p, ok) => p in s.writing && o == WriteDone(s, p, ok)
    case Update(p, x, plan, reason, limit, now) =>
      // The heap yields the desired chunks in some order, and closed connections make no requests.
      && p in s.swarm.peers && !s.swarm.peers[p].closed
      && (forall r :: r in plan <==> r in Desired(s, x, p))
      && o == UpdateRequests(s, x, p, plan, reason, limit, now)
    case HashStep(h) =>
      // Marking our own pieces also updates completion, below.
      && !(h.FinishMark? && h.p.torrent == s.me)
      && exists t :: H.Next(s.hash, lim, h, t) && o == Running(s.(hash := t))
    case MarkDone(i, passed, next) =>
      exists t :: H.Next(s.hash, lim, H.FinishMark(Key(s, i), next), t)
                  && o == Running(Marked(s, i, passed).(hash := t))
    case StorageCompletion(i, c) => i < s.layout.pieces && o == Running(SetCompletion(s, i, c))
  }

  // ---- Invariants --------------------------------------------------------------------------------

  function Writing(l: Layout, writing: map<PeerId, nat>, i: nat): set<PeerId> {
    set p | p in writing && PieceOf(l, writing[p]) == i
  }

  function Writers(s: State, i: nat): set<PeerId> { Writing(s.layout, s.writing, i) }

  ghost predicate ChunkRight(s: State, r: nat)
  {
    && (r in s.dirty ==> IsChunk(s.layout, r) && r !in s.swarm.owner && !Complete(s, PieceOf(s.layout, r)))
    && (r in s.swarm.owner ==> IsChunk(s.layout, r) && !Complete(s, PieceOf(s.layout, r)))
  }

  ghost predicate PieceRight(s: State, i: nat)
  {
    && Pending(s, i) == |Writers(s, i)|
    && (i < s.layout.pieces && !Closed(s) && AllDirty(s, i) && Pending(s, i) == 0 ==> InPipeline(s, i))
  }

  /** Whenever the lock is free: a dirty chunk is outstanding nowhere, nothing of a complete piece is
      outstanding or dirty, pending writes are counted exactly, and a piece whose chunks are all dirty
      and written is on its way through the hash pipeline. */
  ghost predicate Right(s: State) {
    && Sound(s.layout)
    && R.Consistent(s.swarm)
    && (forall p <- s.writing :: IsChunk(s.layout, s.writing[p]))
    && (forall r: nat :: ChunkRight(s, r))
    && (forall i: nat :: PieceRight(s, i))
  }

  // ---- Steps keep the invariants -----------------------------------------------------------------

  lemma PendAllClears(s: State, i: nat)
    requires Sound(s.layout) && i < s.layout.pieces
    ensures !AllDirty(PendAll(s, i), i)
  {
    var r :| r in ChunksOf(s.layout, i);
    assert r !in PendAll(s, i).dirty;
  }

  lemma SamePieces(s: State, t: State, i: nat)
    requires t.layout == s.layout && t.dirty == s.dirty && t.writing == s.writing
    ensures AllDirty(t, i) == AllDirty(s, i) && Writers(t, i) == Writers(s, i)
  {
  }

  lemma PiecesAfterShrink(s: State, t: State)
    requires Right(s) && t.layout == s.layout && t.me == s.me && t.hash == s.hash
    requires t.dirty <= s.dirty && t.writing == s.writing && t.pendingWrites == s.pendingWrites
    ensures forall i: nat :: PieceRight(t, i)
  {
    forall i: nat ensures PieceRight(t, i) {
      assert PieceRight(s, i);
      assert Writers(t, i) == Writers(s, i);
    }
  }

  // Dirty and owned chunks only go away, and a piece newly complete keeps none of either.
  lemma CompletionChunks(s: State, t: State, i: nat)
    requires t.layout == s.layout && t.dirty <= s.dirty && t.swarm.owner.Keys <= s.swarm.owner.Keys
    requires forall j: nat :: j != i ==> Cached(t, j) == Cached(s, j)
    requires Complete(t, i) && !Complete(s, i) ==>
               forall r: nat :: PieceOf(s.layout, r) == i ==> r !in t.dirty && r !in t.swarm.owner
    requires forall r: nat :: ChunkRight(s, r)
    ensures forall r: nat :: ChunkRight(t, r)
  {
    forall r: nat ensures ChunkRight(t, r) {
      assert ChunkRight(s, r);
    }
  }

  lemma CompletedRight(s: State, i: nat)
    requires Right(s)
    ensures Right(OnCompleted(s.(completion := s.completion[i := Known(true)]), i))
  {
    var t := OnCompleted(s.(completion := s.completion[i := Known(true)]), i);
    R.CancelSetSafe(s.swarm, set r | r in s.swarm.owner && PieceOf(s.layout, r) == i);
    PiecesAfterShrink(s, t);
    CompletionChunks(s, t, i);
  }

  lemma SetCompletionRight(s: State, i: nat, c: Completion)
    requires Right(s)
    ensures Right(SetCompletion(s, i, c)) && SetCompletion(s, i, c).dirty <= s.dirty
    ensures SetCompletion(s, i, c).hash == s.hash && SetCompletion(s, i, c).me == s.me
    ensures SetCompletion(s, i, c).layout == s.layout
  {
    if Cached(s, i) != c && c == Known(true) {
      CompletedRight(s, i);
    } else {
      PiecesAfterShrink(s, SetCompletion(s, i, c));
      CompletionChunks(s, SetCompletion(s, i, c), i);
    }
  }

  lemma ShrinkRight(s: State, dirty: set<nat>)
    requires Right(s) && dirty <= s.dirty
    ensures Right(s.(dirty := dirty))
  {
    var t := s.(dirty := dirty);
    PiecesAfterShrink(s, t);
    forall r: nat ensures ChunkRight(t, r) {
      assert ChunkRight(s, r);
    }
  }

  /** Recording a hash result keeps everything right, and leaves the piece with a clean chunk. */
  lemma MarkedRight(s: State, i: nat, passed: bool)
    requires Right(s)
    ensures Right(Marked(s, i, passed))
    ensures Marked(s, i, passed).hash == s.hash && Marked(s, i, passed).me == s.me
    ensures Marked(s, i, passed).layout == s.layout
    ensures !Closed(s) && i < s.layout.pieces ==> !AllDirty(Marked(s, i, passed), i)
  {
    if !Closed(s) {
      ShrinkRight(s, PendAll(s, i).dirty);
      var mid := if passed then PendAll(s, i) else OnIncomplete(s, i);
      assert Right(mid) by {
        assert s.(dirty := s.dirty) == s;
      }
      SetCompletionRight(mid, i, if passed then Known(true) else Known(false));
      if i < s.layout.pieces {
        PendAllClears(s, i);
        StaysClean(mid, Marked(s, i, passed), i);
      }
    }
  }

  lemma StaysClean(s: State, t: State, i: nat)
    requires t.layout == s.layout && t.dirty <= s.dirty && !AllDirty(s, i)
    ensures !AllDirty(t, i)
  {
    var r :| r in ChunksOf(s.layout, i) && r !in s.dirty;
    assert r !in t.dirty;
  }

  predicate Inside(h: H.State, p: H.Piece) { p in h.queued || p in h.hashing || p in h.marking }

  // Of an open torrent, only the end of marking takes a piece out of the pipeline.
  lemma StaysInside(h: H.State, lim: H.Limits, e: H.Event, g: H.State, p: H.Piece)
    requires H.Next(h, lim, e, g) && Inside(h, p) && p.torrent !in g.closed
    requires !(e.FinishMark? && e.p == p)
    ensures Inside(g, p)
  {
    match e
    case FinishRead(q, next) =>
      if q == p {
        assert g.marking == h.marking + {p};
      }
    case _ =>
  }

  lemma ClosedGrows(h: H.State, lim: H.Limits, e: H.Event, g: H.State)
    requires H.Next(h, lim, e, g)
    ensures h.closed <= g.closed
  {
  }

  lemma HashStepRight(s: State, lim: H.Limits, e: H.Event, g: H.State)
    requires Right(s) && H.Next(s.hash, lim, e, g)
    requires e.FinishMark? && e.p.torrent == s.me && e.p.index < s.layout.pieces && !Closed(s)
             ==> !AllDirty(s, e.p.index)
    ensures Right(s.(hash := g))
  {
    var t := s.(hash := g);
    ClosedGrows(s.hash, lim, e, g);
    forall r: nat ensures ChunkRight(t, r) {
      assert ChunkRight(s, r);
    }
    forall i: nat ensures PieceRight(t, i) {
      assert PieceRight(s, i);
      SamePieces(s, t, i);
      if InPipeline(s, i) && !Closed(t) && !(e.FinishMark? && e.p == Key(s, i)) {
        StaysInside(s.hash, lim, e, g, Key(s, i));
      }
    }
  }

  lemma WriterAdded(l: Layout, w: map<PeerId, nat>, p: PeerId, r: nat, j: nat)
    requires p !in w
    ensures |Writing(l, w[p := r], j)| == |Writing(l, w, j)| + if PieceOf(l, r) == j then 1 else 0
  {
    var before, after := Writing(l, w, j), Writing(l, w[p := r], j);
    forall q ensures q in after <==> q in before || (q == p && PieceOf(l, r) == j) {
    }
    assert after == before + if PieceOf(l, r) == j then {p} else {};
  }

  lemma WriterGone(l: Layout, w: map<PeerId, nat>, p: PeerId, j: nat)
    requires p in w
    ensures |Writing(l, w, j)| == |Writing(l, w - {p}, j)| + if PieceOf(l, w[p]) == j then 1 else 0
  {
    WriterAdded(l, w - {p}, p, w[p], j);
    assert (w - {p})[p := w[p]] == w;
  }

  lemma ReceivedChunks(s: State, t: State, r: nat)
    requires t.layout == s.layout && t.completion == s.completion && t.swarm == s.swarm && t.dirty == s.dirty + {r}
    requires IsChunk(s.layout, r) && !Complete(s, PieceOf(s.layout, r)) && r !in s.swarm.owner
    requires forall x: nat :: ChunkRight(s, x)
    ensures forall x: nat :: ChunkRight(t, x)
  {
    forall x: nat ensures ChunkRight(t, x) {
      assert ChunkRight(s, x);
    }
  }

  lemma ReceivedPieces(s: State, t: State, p: PeerId, r: nat, j: nat)
    requires t.layout == s.layout && t.hash == s.hash && t.me == s.me && p !in s.writing
    requires t.writing == s.writing[p := r] && t.dirty == s.dirty + {r}
    requires t.pendingWrites == s.pendingWrites[PieceOf(s.layout, r) := Pending(s, PieceOf(s.layout, r)) + 1]
    requires PieceRight(s, j)
    ensures PieceRight(t, j)
  {
    WriterAdded(s.layout, s.writing, p, r, j);
    if PieceOf(s.layout, r) != j {
      assert r !in ChunksOf(s.layout, j);
    }
  }

  lemma AcceptRight(s: State, p: PeerId, r: nat, plausible: bool, o: R.Outcome)
    requires Right(s) && p !in s.writing && IsChunk(s.layout, r)
    requires o.Running? && R.Consistent(o.s) && o.s.owner.Keys <= s.swarm.owner.Keys
    requires plausible && Wanted(s, r) ==> r !in o.s.owner
    ensures Accept(s, p, r, plausible, o).Running? && Right(Accept(s, p, r, plausible, o).s)
  {
    var m, t := s.(swarm := o.s), Accept(s, p, r, plausible, o).s;
    CleanOwned(s, o.s);
    if plausible && Wanted(s, r) {
      ReceivedChunks(m, t, r);
      forall j: nat ensures PieceRight(t, j) {
        assert PieceRight(m, j);
        ReceivedPieces(m, t, p, r, j);
      }
    }
  }

  lemma ReceiveRight(s: State, p: PeerId, r: nat)
    requires Right(s) && p in s.swarm.peers && p !in s.writing && IsChunk(s.layout, r)
    ensures ReceiveBegin(s, p, r).Running? && Right(ReceiveBegin(s, p, r).s)
  {
    var o := R.ReceiveChunk(s.swarm, p, r, Wanted(s, r));
    assert o.Running? && R.Consistent(o.s) && o.s.owner.Keys <= s.swarm.owner.Keys
           && (R.Count(s.swarm.peers[p], r) > 0 && Wanted(s, r) ==> r !in o.s.owner) by {
      R.ReceiveChunkSafe(s.swarm, p, r, Wanted(s, r));
      R.OwnersAfter(s.swarm, R.Chunk(p, r, Wanted(s, r)));
    }
    AcceptRight(s, p, r, R.Count(s.swarm.peers[p], r) > 0, o);
  }

  lemma WrittenRight(s: State, p: PeerId, ok: bool)
    requires Right(s) && p in s.writing
    ensures WriteDone(s, p, ok).Running? && Right(WriteDone(s, p, ok).s)
  {
    var r := s.writing[p];
    var i := PieceOf(s.layout, r);
    assert PieceRight(s, i);
    assert p in Writers(s, i);
    var t := WriteDone(s, p, ok).s;
    forall x: nat ensures ChunkRight(t, x) {
      assert ChunkRight(s, x);
    }
    forall j: nat ensures PieceRight(t, j) {
      assert PieceRight(s, j);
      WriterGone(s.layout, s.writing, p, j);
      WrittenPipeline(s, p, ok, j);
    }
  }

  // The last writer of a full piece queues it; a failed write leaves a clean chunk.
  lemma WrittenPipeline(s: State, p: PeerId, ok: bool, j: nat)
    requires Right(s) && p in s.writing && WriteDone(s, p, ok).Running?
    ensures var t := WriteDone(s, p, ok).s;
            j < t.layout.pieces && !Closed(t) && AllDirty(t, j) && Pending(t, j) == 0 ==> InPipeline(t, j)
  {
    var r := s.writing[p];
    var i := PieceOf(s.layout, r);
    var t := WriteDone(s, p, ok).s;
    assert PieceRight(s, j);
    if j != i {
      assert AllDirty(t, j) ==> AllDirty(s, j);
    } else if !ok {
      assert IsChunk(s.layout, r) && r !in t.dirty;
    } else {
      assert AllDirty(t, i) == AllDirty(s, i);
    }
  }

  // The swarm changes, and what becomes owned is clean and of an incomplete piece.
  lemma CleanOwned(s: State, swarm: R.Swarm)
    requires Right(s) && R.Consistent(swarm)
    requires forall r <- swarm.owner :: r in s.swarm.owner || (r in s.layout.of && r !in s.dirty && !Complete(s, s.layout.of[r]))
    ensures Right(s.(swarm := swarm))
  {
    var t := s.(swarm := swarm);
    forall r: nat ensures ChunkRight(t, r) {
      assert ChunkRight(s, r);
    }
    forall i: nat ensures PieceRight(t, i) {
      assert PieceRight(s, i);
      SamePieces(s, t, i);
    }
  }

  lemma DesiredMayBeRequested(s: State, x: Inputs, p: PeerId, plan: seq<nat>)
    requires p in s.swarm.peers && !s.swarm.peers[p].closed
    requires forall r <- plan :: r in Desired(s, x, p)
    ensures P.Planned(s.swarm, p, plan, Ready(s, x))
  {
    forall r | r in plan ensures R.MayRequest(s.swarm, p, r, Ready(s, x)) {
      assert r in Desired(s, x, p);
    }
  }

  /** Planning and requesting belong together: whatever desired chunks are asked for, in whatever
      order and taken over from whomever, none of the checks before a request fails, and everything
      stays right. */
  lemma UpdateRight(s: State, x: Inputs, p: PeerId, plan: seq<nat>, reason: P.Reason, limit: int, now: int)
    requires Right(s) && p in s.swarm.peers && !s.swarm.peers[p].closed
    requires forall r <- plan :: r in Desired(s, x, p)
    ensures UpdateRequests(s, x, p, plan, reason, limit, now).Running?
    ensures Right(UpdateRequests(s, x, p, plan, reason, limit, now).s)
  {
    DesiredMayBeRequested(s, x, p, plan);
    P.ApplySafe(s.swarm, p, plan, P.Terms(Ready(s, x), reason, limit, now));
    var t := P.Apply(s.swarm, p, plan, P.Terms(Ready(s, x), reason, limit, now)).s;
    forall r | r in t.owner && r !in s.swarm.owner
      ensures r in s.layout.of && r !in s.dirty && !Complete(s, s.layout.of[r])
    {
      assert r in plan;
      assert r in Desired(s, x, p);
    }
    CleanOwned(s, t);
  }

  lemma MarkDoneRight(s: State, lim: H.Limits, i: nat, passed: bool, next: set<H.Piece>, g: H.State)
    requires Right(s) && H.Next(s.hash, lim, H.FinishMark(Key(s, i), next), g)
    ensures Right(Marked(s, i, passed).(hash := g))
  {
    MarkedRight(s, i, passed);
    HashStepRight(Marked(s, i, passed), lim, H.FinishMark(Key(s, i), next), g);
  }

  /** No critical section panics, and each leaves the torrent right. */
  lemma NextRight(s: State, lim: H.Limits, e: Event, o: Outcome)
    requires Right(s) && Next(s, lim, e, o)
    ensures o.Running? && Right(o.s)
  {
    match e
    case Swarm(x) =>
      R.NextSafe(s.swarm, x);
      R.OwnersAfter(s.swarm, x);
      CleanOwned(s, R.Next(s.swarm, x).s);
    case Receive(p, r) => ReceiveRight(s, p, r);
    case Written(p, ok) => WrittenRight(s, p, ok);
    case Update(p, x, plan, reason, limit, now) => UpdateRight(s, x, p, plan, reason, limit, now);
    case HashStep(h) =>
      var g :| H.Next(s.hash, lim, h, g) && o == Running(s.(hash := g));
      HashStepRight(s, lim, h, g);
    case MarkDone(i, passed, next) =>
      var g :| H.Next(s.hash, lim, H.FinishMark(Key(s, i), next), g) && o == Running(Marked(s, i, passed).(hash := g));
      MarkDoneRight(s, lim, i, passed, next, g);
    case StorageCompletion(i, c) => SetCompletionRight(s, i, c);
  }

  ghost predicate Initial(s: State) {
    && Sound(s.layout) && s.swarm == R.Empty && H.Initial(s.hash)
    && s.dirty == {} && s.completion == map[] && s.pendingWrites == map[] && s.writing == map[]
  }

  ghost predicate StepAt(states: seq<State>, events: seq<Event>, lim: H.Limits, i: nat)
    requires i < |events| && |states| == |events| + 1
  {
    Next(states[i], lim, events[i], Running(states[i + 1]))
  }

  ghost predicate Behaviour(states: seq<State>, events: seq<Event>, lim: H.Limits) {
    && |states| == |events| + 1
    && forall i: nat :: i < |events| ==> StepAt(states, events, lim, i)
  }

  lemma InitialRight(s: State)
    requires Initial(s)
    ensures Right(s)
  {
    assert R.Consistent(R.Empty);
    forall i: nat ensures PieceRight(s, i) {
      assert Writers(s, i) == {};
      assert i < s.layout.pieces ==> !AllDirty(s, i);
    }
  }

  lemma {:induction false} BehaviourRight(states: seq<State>, events: seq<Event>, lim: H.Limits, k: nat)
    requires Behaviour(states, events, lim) && Initial(states[0]) && k < |states|
    ensures Right(states[k])
    decreases k
  {
    if k == 0 {
      InitialRight(states[0]);
    } else {
      BehaviourRight(states, events, lim, k - 1);
      assert StepAt(states, events, lim, k - 1);
      NextRight(states[k - 1], lim, events[k - 1], Running(states[k]));
    }
  }

  // ---- What each critical section does -----------------------------------------------------------

  // Only what belongs to piece i may differ.
  ghost predicate OnlyPiece(s: State, t: State, i: nat) {
    && t.layout == s.layout && t.me == s.me && t.pendingWrites == s.pendingWrites && t.writing == s.writing
    && (forall j: nat :: j != i ==> Cached(t, j) == Cached(s, j))
    && (forall r: nat :: PieceOf(s.layout, r) != i ==> (r in t.dirty <==> r in s.dirty))
    && (forall r: nat :: PieceOf(s.layout, r) != i ==> (r in t.swarm.owner <==> r in s.swarm.owner))
    && (forall r: nat :: r in t.dirty ==> r in s.dirty)
  }

  // Nothing of the piece is dirty or outstanding.
  ghost predicate Clear(s: State, i: nat) {
    forall r: nat :: PieceOf(s.layout, r) == i ==> r !in s.dirty && r !in s.swarm.owner
  }

  // What a piece's new completion leaves of its chunks.
  ghost predicate CompletionTaken(s: State, t: State, i: nat, c: Completion) {
    && OnlyPiece(s, t, i) && Cached(t, i) == c
    && (c == Known(true) ==> Clear(t, i))
    && (c != Known(true) ==> t.swarm == s.swarm)
    && (c != Known(true) && !AllDirty(s, i) ==> t.dirty == s.dirty)
  }

  lemma SetCompletionTaken(s: State, i: nat, c: Completion)
    requires Right(s)
    ensures CompletionTaken(s, SetCompletion(s, i, c), i, c)
    ensures c != Known(true) && AllDirty(s, i) && Cached(s, i) != c ==>
              forall r: nat :: PieceOf(s.layout, r) == i ==> r !in SetCompletion(s, i, c).dirty
  {
    var t := SetCompletion(s, i, c);
    SetCompletionRight(s, i, c);
    if c == Known(true) {
      forall r: nat | PieceOf(s.layout, r) == i ensures r !in t.dirty && r !in t.swarm.owner {
        assert ChunkRight(t, r);
      }
    }
  }

  lemma OnlyPieceTwice(s: State, m: State, t: State, i: nat)
    requires OnlyPiece(s, m, i) && OnlyPiece(m, t, i)
    ensures OnlyPiece(s, t, i)
  {
  }

  lemma PassedDecides(s: State, i: nat)
    requires Right(s) && !Closed(s)
    ensures CompletionTaken(s, Marked(s, i, true), i, Known(true))
  {
    var mid := PendAll(s, i);
    ShrinkRight(s, mid.dirty);
    SetCompletionTaken(mid, i, Known(true));
    OnlyPieceTwice(s, mid, Marked(s, i, true), i);
  }

  lemma FailedDecides(s: State, i: nat)
    requires Right(s) && !Closed(s)
    ensures CompletionTaken(s, Marked(s, i, false), i, Known(false))
    ensures AllDirty(s, i) ==> forall r: nat :: PieceOf(s.layout, r) == i ==> r !in Marked(s, i, false).dirty
  {
    var mid := OnIncomplete(s, i);
    ShrinkRight(s, mid.dirty);
    assert s.(dirty := mid.dirty) == mid;
    SetCompletionTaken(mid, i, Known(false));
    OnlyPieceTwice(s, mid, Marked(s, i, false), i);
  }

  /** A hash result decides the piece's completion and nobody else's. When it passed, nothing of the
      piece stays dirty or outstanding; when it failed, a full piece starts over and any other keeps
      what it has. On a closed torrent nothing happens. */
  lemma MarkDoneDecides(s: State, lim: H.Limits, i: nat, passed: bool, next: set<H.Piece>, t: State)
    requires Right(s) && Next(s, lim, MarkDone(i, passed, next), Running(t))
    ensures Closed(s) ==> t == s.(hash := t.hash)
    ensures !Closed(s) ==> CompletionTaken(s, t, i, Known(passed))
    ensures !Closed(s) && !passed && AllDirty(s, i) ==> forall r: nat :: PieceOf(s.layout, r) == i ==> r !in t.dirty
  {
    if !Closed(s) {
      if passed {
        PassedDecides(s, i);
      } else {
        FailedDecides(s, i);
      }
      HashAside(s, Marked(s, i, passed), i, Known(passed), t);
    }
  }

  lemma HashAside(s: State, m: State, i: nat, c: Completion, t: State)
    requires CompletionTaken(s, m, i, c) && t == m.(hash := t.hash)
    ensures CompletionTaken(s, t, i, c)
  {
  }

  lemma StorageDecides(s: State, lim: H.Limits, i: nat, c: Completion, t: State)
    requires Right(s) && Next(s, lim, StorageCompletion(i, c), Running(t))
    ensures CompletionTaken(s, t, i, c) && t.hash == s.hash
  {
    SetCompletionTaken(s, i, c);
  }

  /** An arriving chunk becomes dirty, and is on its way to storage, exactly if a delivery of it was
      expected, it was clean and its piece incomplete. */
  lemma ReceiveDirties(s: State, lim: H.Limits, p: PeerId, r: nat, t: State)
    requires Right(s) && Next(s, lim, Receive(p, r), Running(t))
    ensures var taken := R.MarkAt(s.swarm, p, r).expected > 0 && r !in s.dirty && Cached(s, PieceOf(s.layout, r)) != Known(true);
            && t.dirty == (if taken then s.dirty + {r} else s.dirty)
            && t.writing == (if taken then s.writing[p := r] else s.writing)
            && t.completion == s.completion && t.hash == s.hash
            && (taken ==> r !in t.swarm.owner)
  {
    if R.MarkAt(s.swarm, p, r).expected > 0 {
      R.ReceiveChunkSafe(s.swarm, p, r, Wanted(s, r));
    }
  }

  /** A finished write leaves the chunk dirty, a failed one makes it clean again. The piece is queued for
      hashing exactly if the write succeeded, all its chunks are dirty and nobody else is writing one. */
  lemma WrittenQueues(s: State, lim: H.Limits, p: PeerId, ok: bool, t: State)
    requires Right(s) && Next(s, lim, Written(p, ok), Running(t))
    ensures var r := s.writing[p];
            var i := PieceOf(s.layout, r);
            && t.writing == s.writing - {p} && t.completion == s.completion && t.swarm == s.swarm
            && t.dirty == (if ok then s.dirty else s.dirty - {r})
            && t.hash == s.hash.(queued := t.hash.queued, clock := t.hash.clock)
            && t.hash.queued == s.hash.queued +
                 if ok && ChunksOf(s.layout, i) <= s.dirty && Writers(s, i) == {p} then {Key(s, i)} else {}
  {
    var r := s.writing[p];
    var i := PieceOf(s.layout, r);
    assert PieceRight(s, i);
    WriterGone(s.layout, s.writing, p, i);
    assert p in Writers(s, i);
    if |Writers(s, i)| == 1 {
      OnlyOne(Writers(s, i), p);
    }
    assert s.hash.queued + {} == s.hash.queued;
    assert Writers(s, i) == {p} <==> Pending(s, i) == 1;
  }

  lemma OnlyOne(a: set<PeerId>, p: PeerId)
    requires p in a && |a| == 1
    ensures a == {p}
  {
    assert |a - {p}| == 0;
  }

  // A chunk that could be asked of p now.
  ghost predicate Askable(s: State, x: Inputs, p: PeerId, r: nat)
    requires p in s.swarm.peers
  {
    && !Closed(s) && !x.disallowed && IsChunk(s.layout, r) && r !in s.dirty
    && (var i := PieceOf(s.layout, r);
        && i in x.offered && i in x.wanted && i in x.hashes && i in x.peerHas
        && Cached(s, i) == Known(false) && !InPipeline(s, i))
    && (var c := s.swarm.peers[p];
        r !in c.cancelled && (c.peerChoking ==> r in c.allowedFast || r in c.requests))
  }

  /** An update with room left leaves no chunk that could be asked of the connection without somebody
      asked for it, and gives only such chunks to it; nothing but requests changes. */
  lemma UpdateAsks(s: State, lim: H.Limits, e: Event, t: State, r: nat)
    requires Right(s) && e.Update? && Next(s, lim, e, Running(t))
    ensures t == s.(swarm := t.swarm) && e.p in t.swarm.peers
    ensures (&& e.reason != P.RemoteReject && Askable(s, e.x, e.p, r)
             && |t.swarm.peers[e.p].requests| + |t.swarm.peers[e.p].cancelled| < e.limit) ==> r in t.swarm.owner
    ensures r in t.swarm.peers[e.p].requests ==> r in s.swarm.peers[e.p].requests || Askable(s, e.x, e.p, r)
  {
    DesiredMayBeRequested(s, e.x, e.p, e.plan);
    var u := P.Terms(Ready(s, e.x), e.reason, e.limit, e.now);
    P.AppliedAll(s.swarm, t.swarm, e.p, e.plan, u);
    assert r in e.plan <==> r in Desired(s, e.x, e.p);
    assert r in Desired(s, e.x, e.p) <==> Askable(s, e.x, e.p, r);
  }

  // What was last decided about a piece, told by the events.
  ghost function LastDecided(states: seq<State>, events: seq<Event>, i: nat, k: nat): Completion
    requires k <= |events| <= |states|
  {
    if k == 0 then Unknown
    else
      match events[k - 1]
      case MarkDone(j, passed, _) =>
        if j == i && !Closed(states[k - 1]) then Known(passed) else LastDecided(states, events, i, k - 1)
      case StorageCompletion(j, c) => if j == i then c else LastDecided(states, events, i, k - 1)
      case _ => LastDecided(states, events, i, k - 1)
  }

  /** In every interleaving a piece counts as complete exactly if the last decision about it, a hash
      result of the open torrent or what storage reported, said so. */
  lemma {:induction false} CompletionIsDecided(states: seq<State>, events: seq<Event>, lim: H.Limits, i: nat, k: nat)
    requires Behaviour(states, events, lim) && Initial(states[0]) && k < |states|
    ensures Cached(states[k], i) == LastDecided(states, events, i, k)
    decreases k
  {
    if k > 0 {
      CompletionIsDecided(states, events, lim, i, k - 1);
      BehaviourRight(states, events, lim, k - 1);
      assert StepAt(states, events, lim, k - 1);
      CompletionStep(states[k - 1], lim, events[k - 1], states[k], i);
    }
  }

  lemma CompletionStep(s: State, lim: H.Limits, e: Event, t: State, i: nat)
    requires Right(s) && Next(s, lim, e, Running(t))
    ensures e.MarkDone? && e.i == i && !Closed(s) ==> Cached(t, i) == Known(e.passed)
    ensures e.StorageCompletion? && e.i == i ==> Cached(t, i) == e.c
    ensures !(e.MarkDone? && e.i == i && !Closed(s)) && !(e.StorageCompletion? && e.i == i) ==> Cached(t, i) == Cached(s, i)
  {
    match e
    case MarkDone(j, passed, next) => MarkDoneDecides(s, lim, j, passed, next, t);
    case StorageCompletion(j, c) => StorageDecides(s, lim, j, c, t);
    case Receive(p, r) => ReceiveDirties(s, lim, p, r, t);
    case Written(p, ok) => WrittenQueues(s, lim, p, ok, t);
    case _ =>
  }

  /** No piece is stranded: across interleaved arrivals, writes, write failures, completion changes
      and hashes of any torrents, a piece of an open torrent whose chunks are all dirty and written is
      queued, being hashed or being marked. */
  lemma NoPieceStranded(states: seq<State>, events: seq<Event>, lim: H.Limits, k: nat, i: nat)
    requires Behaviour(states, events, lim) && Initial(states[0]) && k < |states|
    requires i < states[k].layout.pieces && !Closed(states[k])
    requires AllDirty(states[k], i) && Pending(states[k], i) == 0
    ensures InPipeline(states[k], i)
  {
    BehaviourRight(states, events, lim, k);
    assert PieceRight(states[k], i);
  }

  /** In every reached state a dirty chunk is outstanding from nobody, no chunk of a complete piece is
      outstanding, and a complete piece has no dirty chunk. */
  lemma NothingRequestedTwice(states: seq<State>, events: seq<Event>, lim: H.Limits, k: nat, r: nat)
    requires Behaviour(states, events, lim) && Initial(states[0]) && k < |states|
    ensures r in states[k].dirty ==>
              (forall p <- states[k].swarm.peers :: r !in states[k].swarm.peers[p].requests)
              && !Complete(states[k], PieceOf(states[k].layout, r))
    ensures Complete(states[k], PieceOf(states[k].layout, r)) ==>
              (forall p <- states[k].swarm.peers :: r !in states[k].swarm.peers[p].requests)
  {
    BehaviourRight(states, events, lim, k);
    var s := states[k];
    assert ChunkRight(s, r);
    forall p | p in s.swarm.peers && r in s.swarm.peers[p].requests ensures r in s.swarm.owner {
      assert R.At(s.swarm, p, r);
    }
  }

  /** In every reached state each critical section that is due goes through without a panic. */
  lemma NoPanic(states: seq<State>, events: seq<Event>, lim: H.Limits, k: nat, e: Event, o: Outcome)
    requires Behaviour(states, events, lim) && Initial(states[0]) && k < |states|
    requires Next(states[k], lim, e, o)
    ensures o.Running?
  {
    BehaviourRight(states, events, lim, k);
    NextRight(states[k], lim, e, o);
  }

  /** The code tests "all dirty" by counting dirty chunks of the piece; on a right torrent that is the
      same as every chunk being dirty. */
  lemma AllDirtyByCounting(s: State, i: nat)
    requires Right(s)
    ensures AllDirty(s, i) <==> |set r | r in s.dirty && PieceOf(s.layout, r) == i| == |ChunksOf(s.layout, i)|
  {
    var d := set r | r in s.dirty && PieceOf(s.layout, r) == i;
    forall r | r in d ensures r in ChunksOf(s.layout, i) {
      assert ChunkRight(s, r);
    }
    if AllDirty(s, i) {
      assert d == ChunksOf(s.layout, i);
    } else {
      var r :| r in ChunksOf(s.layout, i) && r !in s.dirty;
      SubsetSize(d, ChunksOf(s.layout, i) - {r});
    }
  }

  // ---- The torrent -------------------------------------------------------------------------------

  /** The fields the critical sections change, and the sections as they change them. */
  class Torrent {
    const layout: Layout
    const me: H.TorrentId
    var swarm: R.Swarm
    var hash: H.State
    var dirty: set<nat>
    var completion: map<nat, Completion>
    var pendingWrites: map<nat, nat>
    var writing: map<PeerId, nat>

    ghost function Value(): State
      reads this
    {
      State(layout, swarm, hash, me, dirty, completion, pendingWrites, writing)
    }

    ghost predicate Valid()
      reads this
    {
      Right(Value())
    }

    constructor (layout: Layout, me: H.TorrentId, hash: H.State)
      requires Sound(layout) && H.Initial(hash)
      ensures Valid() && Initial(Value()) && this.layout == layout
    {
      this.layout, this.me, this.hash := layout, me, hash;
      swarm, dirty, completion, pendingWrites, writing := R.Empty, {}, map[], map[], map[];
      new;
      InitialRight(Value());
    }

    function CachedCompletion(i: nat): Completion
      reads this
    {
      if i in completion then completion[i] else Unknown
    }

    function PendingOf(i: nat): nat
      reads this
    {
      if i in pendingWrites then pendingWrites[i] else 0
    }

    // Counts the piece's dirty chunks, one by one.
    method CountDirty(i: nat) returns (n: nat)
      ensures n == |set r | r in dirty && PieceOf(layout, r) == i|
    {
      n := 0;
      var todo: set<nat> := dirty;
      ghost var seen: set<nat> := {};
      while todo != {}
        invariant todo <= dirty && seen == (set r | r in dirty && r !in todo && PieceOf(layout, r) == i) && n == |seen|
        decreases |todo|
      {
        var r :| r in todo;
        if PieceOf(layout, r) == i {
          seen := seen + {r};
          n := n + 1;
        }
        todo := todo - {r};
      }
      assert seen == (set r | r in dirty && PieceOf(layout, r) == i);
    }

    method PieceAllDirty(i: nat) returns (all: bool)
      requires Valid()
      ensures all == AllDirty(Value(), i)
    {
      AllDirtyByCounting(Value(), i);
      var n := CountDirty(i);
      all := n == |ChunksOf(layout, i)|;
    }

    method PendAllChunkSpecs(i: nat)
      modifies this`dirty
      ensures Value() == PendAll(old(Value()), i)
    {
      dirty := set r | r in dirty && PieceOf(layout, r) != i;
    }

    // A chunk has arrived: unless it is unexpected or not wanted, it is dirty and goes to be written.
    method ReceiveChunk(p: PeerId, r: nat)
      requires Valid() && p in swarm.peers && p !in writing && IsChunk(layout, r)
      modifies this`swarm, this`dirty, this`pendingWrites, this`writing
      ensures Valid() && Running(Value()) == ReceiveBegin(old(Value()), p, r)
    {
      ghost var s := Value();
      ReceiveRight(s, p, r);
      var i := PieceOf(layout, r);
      var plausible := R.Count(swarm.peers[p], r) > 0;
      var wanted := CachedCompletion(i) != Known(true) && r !in dirty;
      var o := R.ReceiveChunk(swarm, p, r, wanted);
      swarm := o.s;
      if plausible && wanted {
        dirty := dirty + {r};
        pendingWrites := pendingWrites[i := PendingOf(i) + 1];
        writing := writing[p := r];
      }
      assert Running(Value()) == Accept(s, p, r, plausible, o);
    }

    // The write is over: the last writer of a full piece queues it to be hashed.
    method FinishWrite(p: PeerId, ok: bool)
      requires Valid() && p in writing
      modifies this`hash, this`dirty, this`pendingWrites, this`writing
      ensures Valid() && Running(Value()) == WriteDone(old(Value()), p, ok)
    {
      ghost var s := Value();
      WrittenRight(s, p, ok);
      var r := writing[p];
      var i := PieceOf(layout, r);
      var full := PieceAllDirty(i);
      assert PendingOf(i) > 0;
      pendingWrites := pendingWrites[i := PendingOf(i) - 1];
      writing := writing - {p};
      if !ok {
        dirty := dirty - {r};
      } else if full && PendingOf(i) == 0 {
        hash := H.Queue(hash, H.Piece(me, i));
      }
      assert Running(Value()) == WriteDone(s, p, ok);
    }

    method OnIncompletePiece(i: nat)
      requires Valid()
      modifies this`dirty
      ensures Value() == OnIncomplete(old(Value()), i)
    {
      var full := PieceAllDirty(i);
      if full {
        PendAllChunkSpecs(i);
      }
    }

    // Cancels whatever is outstanding of a piece that has become complete.
    method OnPieceCompleted(i: nat)
      modifies this`dirty, this`swarm
      ensures Value() == OnCompleted(old(Value()), i)
    {
      PendAllChunkSpecs(i);
      swarm := R.CancelSet(swarm, set r | r in swarm.owner && PieceOf(layout, r) == i);
    }

    method SetPieceCompletion(i: nat, c: Completion)
      requires Valid()
      modifies this`completion, this`dirty, this`swarm
      ensures Valid() && Value() == SetCompletion(old(Value()), i, c)
    {
      ghost var s := Value();
      SetCompletionRight(s, i, c);
      var changed := CachedCompletion(i) != c;
      var full := PieceAllDirty(i);
      completion := completion[i := c];
      if changed {
        if c == Known(true) {
          OnPieceCompleted(i);
        } else if full {
          PendAllChunkSpecs(i);
        }
      }
      assert Value() == SetCompletion(s, i, c);
    }

    // The result of a hash is in storage, and the lock is held again.
    method PieceMarked(i: nat, passed: bool)
      requires Valid()
      modifies this`completion, this`dirty, this`swarm
      ensures Valid() && Value() == Marked(old(Value()), i, passed)
    {
      ghost var s := Value();
      MarkedRight(s, i, passed);
      if me in hash.closed {
        return;
      }
      ShrinkRight(s, PendAll(s, i).dirty);
      assert s.(dirty := s.dirty) == s;
      if passed {
        PendAllChunkSpecs(i);
      } else {
        OnIncompletePiece(i);
      }
      SetPieceCompletion(i, Known(passed));
    }
  }
}
