/**
 * The piece hashing pipeline of a client: pieces of several torrents are queued, hashed by a bounded
 * number of hashers, marked in storage with the lock released, and only then free their hasher.
 */
module Hashing {
  import opened Basics

  type TorrentId = nat

  datatype Piece = Piece(torrent: TorrentId, index: nat)

  // One hash of a piece: when it started reading and when its result was recorded.
  datatype HashRun = HashRun(start: nat, finish: nat)

  datatype Limits = Limits(perTorrent: nat, client: nat)

  datatype State = State(
    queued: set<Piece>,
    hashing: set<Piece>,
    marking: set<Piece>,
    // One entry per recorded result; a piece's verify count is how many there are.
    runs: map<Piece, seq<HashRun>>,
    began: map<Piece, nat>,
    activeHashes: map<TorrentId, nat>,
    activeHashers: nat,
    closed: set<TorrentId>,
    clock: nat)

  function Runs(s: State, p: Piece): seq<HashRun> { if p in s.runs then s.runs[p] else [] }

  function NumVerifies(s: State, p: Piece): nat { |Runs(s, p)| }

  function ActiveHashes(s: State, t: TorrentId): nat { if t in s.activeHashes then s.activeHashes[t] else 0 }

  // ---- Operations --------------------------------------------------------------------------------

  function Tick(s: State): State { s.(clock := s.clock + 1) }

  function Queue(s: State, p: Piece): State { Tick(s.(queued := s.queued + {p})) }

  /** The verify count after the next hash that has not yet begun. */
  function NextNovelHashCount(s: State, p: Piece): nat {
    NumVerifies(s, p) + 1 + if p in s.hashing then 1 else 0
  }

  predicate Pickable(s: State, p: Piece) { p in s.queued && p !in s.hashing && p !in s.marking }

  predicate MayStart(s: State, lim: Limits, t: TorrentId) {
    t !in s.closed && ActiveHashes(s, t) < lim.perTorrent && s.activeHashers < lim.client
  }

  function StartHash(s: State, p: Piece): State {
    s.(queued := s.queued - {p}, hashing := s.hashing + {p}, began := s.began[p := s.clock],
       activeHashes := s.activeHashes[p.torrent := ActiveHashes(s, p.torrent) + 1],
       activeHashers := s.activeHashers + 1)
  }

  function FreeHasher(s: State, p: Piece): State
    requires ActiveHashes(s, p.torrent) > 0 && s.activeHashers > 0
  {
    s.(activeHashes := s.activeHashes[p.torrent := ActiveHashes(s, p.torrent) - 1],
       activeHashers := s.activeHashers - 1)
  }

  // The result is in: the count goes up, and unless the torrent closed the piece is marked in storage.
  function RecordResult(s: State, p: Piece): State
    requires p in s.began
  {
    s.(hashing := s.hashing - {p},
       runs := s.runs[p := Runs(s, p) + [HashRun(s.began[p], s.clock)]],
       marking := if p.torrent in s.closed then s.marking else s.marking + {p})
  }

  datatype Event =
    | QueueCheck(p: Piece)
    | Start(p: Piece)
    | FinishRead(p: Piece, next: set<Piece>)
    | FinishMark(p: Piece, next: set<Piece>)
    | CloseTorrent(t: TorrentId)

  // The freed hasher goes on with another piece of its torrent, without looking at the limits again.
  predicate Continues(s: State, p: Piece, next: set<Piece>) {
    next == {} || (|next| == 1 && forall q <- next :: Pickable(s, q) && q.torrent == p.torrent)
  }

  ghost predicate Enabled(s: State, lim: Limits, e: Event) {
    match e
    case QueueCheck(_) => true
    case Start(p) => MayStart(s, lim, p.torrent) && Pickable(s, p)
    case FinishRead(p, next) =>
      p in s.hashing && p in s.began
      && (if p.torrent in s.closed then Continues(RecordResult(s, p), p, next) else next == {})
    case FinishMark(p, next) => p in s.marking && Continues(s.(marking := s.marking - {p}), p, next)
    case CloseTorrent(_) => true
  }

  ghost predicate Next(s: State, lim: Limits, e: Event, t: State) {
    && Enabled(s, lim, e)
    && match e
       case QueueCheck(p) => t == Queue(s, p)
       case Start(p) => t == Tick(StartHash(s, p))
       case FinishRead(p, next) =>
         var r := RecordResult(s, p);
         if p.torrent !in s.closed then t == Tick(r)
         else ActiveHashes(r, p.torrent) > 0 && r.activeHashers > 0 && Continued(FreeHasher(r, p), next, t)
       case FinishMark(p, next) =>
         var r := s.(marking := s.marking - {p});
         ActiveHashes(r, p.torrent) > 0 && r.activeHashers > 0 && Continued(FreeHasher(r, p), next, t)
       case CloseTorrent(x) => t == Tick(s.(closed := s.closed + {x}))
  }

  ghost predicate Continued(s: State, next: set<Piece>, t: State) {
    if next == {} then t == Tick(s) else exists q :: next == {q} && t == Tick(StartHash(s, q))
  }

  // ---- Hashers are bounded -----------------------------------------------------------------------

  // Pieces that occupy a hasher.
  function Busy(s: State): set<Piece> { s.hashing + s.marking }

  function OfTorrent(ps: set<Piece>, t: TorrentId): set<Piece> { set p | p in ps && p.torrent == t }

  ghost predicate TorrentCounted(s: State, lim: Limits, t: TorrentId) {
    ActiveHashes(s, t) == |OfTorrent(Busy(s), t)| <= lim.perTorrent
  }

  /** The counters equal the pieces being hashed or marked and respect both limits, and no piece is
      in both phases at once. */
  ghost predicate Counted(s: State, lim: Limits) {
    && s.hashing !! s.marking
    && s.activeHashers == |Busy(s)| <= lim.client
    && (forall t :: TorrentCounted(s, lim, t))
    && (forall p <- s.hashing :: p in s.began && s.began[p] <= s.clock)
  }

  lemma OneMore(busy: set<Piece>, p: Piece, t: TorrentId)
    requires p !in busy
    ensures |OfTorrent(busy + {p}, t)| == |OfTorrent(busy, t)| + if t == p.torrent then 1 else 0
  {
    if t == p.torrent {
      assert OfTorrent(busy + {p}, t) == OfTorrent(busy, t) + {p};
    } else {
      assert OfTorrent(busy + {p}, t) == OfTorrent(busy, t);
    }
  }

  lemma StartCounted(s: State, lim: Limits, p: Piece)
    requires Counted(s, lim) && Pickable(s, p)
    requires ActiveHashes(s, p.torrent) < lim.perTorrent && s.activeHashers < lim.client
    ensures Counted(Tick(StartHash(s, p)), lim)
  {
    var t := Tick(StartHash(s, p));
    BusyGrow(s.hashing, s.marking, p);
    forall x ensures TorrentCounted(t, lim, x) {
      assert TorrentCounted(s, lim, x);
      OneMore(Busy(s), p, x);
    }
  }

  /** A step whose guards hold is always possible: the counters never underflow. */
  lemma FinishPossible(s: State, lim: Limits, p: Piece)
    requires Counted(s, lim) && p in Busy(s)
    ensures ActiveHashes(s, p.torrent) > 0 && s.activeHashers > 0
  {
    assert TorrentCounted(s, lim, p.torrent);
    assert p in OfTorrent(Busy(s), p.torrent);
  }

  lemma FreeCounted(s: State, lim: Limits, t: State, p: Piece)
    requires Counted(s, lim) && p in Busy(s)
    requires t.hashing == s.hashing - {p} && t.marking == s.marking - {p}
    requires t.began == s.began && t.clock == s.clock && t.activeHashers == s.activeHashers - 1
    requires forall x :: ActiveHashes(t, x) == ActiveHashes(s, x) - if x == p.torrent then 1 else 0
    ensures Counted(t, lim)
    ensures ActiveHashes(t, p.torrent) < lim.perTorrent && t.activeHashers < lim.client
  {
    BusySplit(s.hashing, s.marking, p);
    forall x ensures TorrentCounted(t, lim, x) {
      assert TorrentCounted(s, lim, x);
      OneMore(Busy(t), p, x);
    }
    assert TorrentCounted(s, lim, p.torrent);
  }

  lemma BusyGrow(hashing: set<Piece>, marking: set<Piece>, p: Piece)
    requires p !in hashing + marking
    ensures (hashing + {p}) + marking == (hashing + marking) + {p}
    ensures |(hashing + {p}) + marking| == |hashing + marking| + 1
  {
    assert (hashing + {p}) + marking == (hashing + marking) + {p};
  }

  lemma BusySplit(hashing: set<Piece>, marking: set<Piece>, p: Piece)
    requires p in hashing + marking
    ensures hashing + marking == ((hashing - {p}) + (marking - {p})) + {p}
    ensures |hashing + marking| == |(hashing - {p}) + (marking - {p})| + 1
  {
    var rest := (hashing - {p}) + (marking - {p});
    assert hashing + marking == rest + {p};
    assert p !in rest;
  }

  lemma ContinuedCounted(s: State, lim: Limits, p: Piece, next: set<Piece>, t: State)
    requires Counted(s, lim)
    requires ActiveHashes(s, p.torrent) < lim.perTorrent && s.activeHashers < lim.client
    requires forall q <- next :: Pickable(s, q) && q.torrent == p.torrent
    requires Continued(s, next, t)
    ensures Counted(t, lim)
  {
    if next != {} {
      var q :| next == {q} && t == Tick(StartHash(s, q));
      assert q in next;
      StartCounted(s, lim, q);
    } else {
      QuietCounted(s, lim, t);
    }
  }

  lemma RecordCounted(s: State, lim: Limits, p: Piece)
    requires Counted(s, lim) && p in s.hashing && p.torrent !in s.closed
    ensures Counted(Tick(RecordResult(s, p)), lim)
  {
    var t := Tick(RecordResult(s, p));
    assert Busy(t) == Busy(s);
    forall x ensures TorrentCounted(t, lim, x) {
      assert TorrentCounted(s, lim, x);
      assert OfTorrent(Busy(t), x) == OfTorrent(Busy(s), x);
    }
  }

  lemma QuietCounted(s: State, lim: Limits, t: State)
    requires Counted(s, lim)
    requires t == s.(queued := t.queued, closed := t.closed, clock := t.clock) && t.clock >= s.clock
    ensures Counted(t, lim)
  {
    forall x ensures TorrentCounted(t, lim, x) {
      assert TorrentCounted(s, lim, x);
      assert OfTorrent(Busy(t), x) == OfTorrent(Busy(s), x);
    }
  }

  lemma FinishReadClosedCounted(s: State, lim: Limits, p: Piece, next: set<Piece>, t: State)
    requires Counted(s, lim) && p.torrent in s.closed && Next(s, lim, FinishRead(p, next), t)
    ensures Counted(t, lim)
  {
    var r := RecordResult(s, p);
    assert s.marking - {p} == s.marking;
    FinishPossible(s, lim, p);
    FreeCounted(s, lim, FreeHasher(r, p), p);
    ContinuedCounted(FreeHasher(r, p), lim, p, next, t);
  }

  lemma FinishMarkCounted(s: State, lim: Limits, p: Piece, next: set<Piece>, t: State)
    requires Counted(s, lim) && Next(s, lim, FinishMark(p, next), t)
    ensures Counted(t, lim)
  {
    var r := s.(marking := s.marking - {p});
    assert s.hashing - {p} == s.hashing;
    FinishPossible(s, lim, p);
    FreeCounted(s, lim, FreeHasher(r, p), p);
    ContinuedCounted(FreeHasher(r, p), lim, p, next, t);
  }

  /** No step breaks the limits, although a finished hasher starts its next piece unchecked. */
  lemma NextCounted(s: State, lim: Limits, e: Event, t: State)
    requires Counted(s, lim) && Next(s, lim, e, t)
    ensures Counted(t, lim)
  {
    match e
    case QueueCheck(_) => QuietCounted(s, lim, t);
    case CloseTorrent(_) => QuietCounted(s, lim, t);
    case Start(p) => StartCounted(s, lim, p);
    case FinishRead(p, next) =>
      if p.torrent in s.closed {
        FinishReadClosedCounted(s, lim, p, next, t);
      } else {
        RecordCounted(s, lim, p);
      }
    case FinishMark(p, next) => FinishMarkCounted(s, lim, p, next, t);
  }

  // ---- Verification is fresh ---------------------------------------------------------------------

  // A piece's hashes follow one another, and the one in flight began after all recorded ones.
  ghost predicate Sequential(s: State, p: Piece) {
    && (forall k :: 0 <= k < NumVerifies(s, p) ==> Runs(s, p)[k].start <= Runs(s, p)[k].finish <= s.clock)
    && (forall k :: 0 < k < NumVerifies(s, p) ==> Runs(s, p)[k - 1].finish <= Runs(s, p)[k].start)
    && (p in s.hashing ==> p in s.began && s.began[p] <= s.clock
                           && (NumVerifies(s, p) > 0 ==> Runs(s, p)[NumVerifies(s, p) - 1].finish <= s.began[p]))
  }

  ghost predicate AllSequential(s: State) { forall p :: Sequential(s, p) }

  // What one step does to one piece: perhaps a result is recorded, perhaps a hash begins now.
  ghost predicate Effect(s: State, t: State, p: Piece) {
    && t.clock == s.clock + 1
    && (Runs(t, p) == Runs(s, p)
        || (p in s.hashing && p in s.began && Runs(t, p) == Runs(s, p) + [HashRun(s.began[p], s.clock)]))
    && (p in t.hashing ==> p in t.began)
    && (p in t.hashing && t.began[p] != s.clock
        ==> p in s.hashing && p in s.began && t.began[p] == s.began[p] && Runs(t, p) == Runs(s, p))
  }

  lemma StepEffect(s: State, lim: Limits, e: Event, t: State, p: Piece)
    requires Next(s, lim, e, t) && (p in s.hashing ==> p in s.began)
    ensures Effect(s, t, p)
  {
    match e
    case FinishRead(q, next) => FinishReadEffect(s, lim, q, next, t, p);
    case FinishMark(q, next) => FinishMarkEffect(s, lim, q, next, t, p);
    case _ =>
  }

  lemma FinishReadEffect(s: State, lim: Limits, q: Piece, next: set<Piece>, t: State, p: Piece)
    requires Next(s, lim, FinishRead(q, next), t) && (p in s.hashing ==> p in s.began)
    ensures Effect(s, t, p)
  {
    var r := RecordResult(s, q);
    assert p != q ==> Runs(r, p) == Runs(s, p);
    if q.torrent in s.closed {
      ContinuedEffect(FreeHasher(r, q), next, t, p);
    }
  }

  lemma ContinuedEffect(s: State, next: set<Piece>, t: State, p: Piece)
    requires Continued(s, next, t)
    ensures t.clock == s.clock + 1 && Runs(t, p) == Runs(s, p)
    ensures p in t.hashing ==> (p in t.began && t.began[p] == s.clock) || (p in s.hashing && (p in s.began ==> p in t.began && t.began[p] == s.began[p]))
  {
  }

  lemma FinishMarkEffect(s: State, lim: Limits, q: Piece, next: set<Piece>, t: State, p: Piece)
    requires Next(s, lim, FinishMark(q, next), t) && (p in s.hashing ==> p in s.began)
    ensures Effect(s, t, p)
  {
  }

  lemma NextSequential(s: State, lim: Limits, e: Event, t: State)
    requires AllSequential(s) && Next(s, lim, e, t)
    ensures AllSequential(t)
  {
    forall p ensures Sequential(t, p) {
      assert Sequential(s, p);
      StepEffect(s, lim, e, t, p);
      EffectSequential(s, t, p);
    }
  }

  lemma EffectSequential(s: State, t: State, p: Piece)
    requires Sequential(s, p) && Effect(s, t, p)
    ensures Sequential(t, p)
  {
  }

  // Results from number `target` on come from hashes begun at or after the call.
  ghost predicate Novel(s: State, p: Piece, call: nat, target: nat) {
    && call <= s.clock && target >= 1
    && (forall k :: target - 1 <= k < NumVerifies(s, p) ==> call <= Runs(s, p)[k].start)
    && (p in s.hashing && NumVerifies(s, p) >= target - 1 ==> p in s.began && call <= s.began[p])
  }

  lemma NextNovel(s: State, lim: Limits, e: Event, t: State, p: Piece, call: nat, target: nat)
    requires Sequential(s, p) && Novel(s, p, call, target) && Next(s, lim, e, t)
    ensures Novel(t, p, call, target)
  {
    StepEffect(s, lim, e, t, p);
  }

  ghost predicate StepAt(states: seq<State>, events: seq<Event>, lim: Limits, i: nat)
    requires i < |events| && |states| == |events| + 1
  {
    Next(states[i], lim, events[i], states[i + 1])
  }

  ghost predicate Behaviour(states: seq<State>, events: seq<Event>, lim: Limits) {
    && |states| == |events| + 1
    && forall i: nat :: i < |events| ==> StepAt(states, events, lim, i)
  }

  ghost predicate Initial(s: State) {
    s == State({}, {}, {}, map[], map[], map[], 0, {}, 0)
  }

  lemma {:induction false} BehaviourInvariant(states: seq<State>, events: seq<Event>, lim: Limits, i: nat)
    requires Behaviour(states, events, lim) && Initial(states[0]) && i < |states|
    ensures Counted(states[i], lim) && AllSequential(states[i])
    decreases i
  {
    if i == 0 {
      forall t ensures TorrentCounted(states[0], lim, t) {
        assert OfTorrent(Busy(states[0]), t) == {};
      }
      forall p ensures Sequential(states[0], p) {
      }
    } else {
      BehaviourInvariant(states, events, lim, i - 1);
      assert StepAt(states, events, lim, i - 1);
      NextCounted(states[i - 1], lim, events[i - 1], states[i]);
      NextSequential(states[i - 1], lim, events[i - 1], states[i]);
    }
  }

  lemma {:induction false} StaysNovel(states: seq<State>, events: seq<Event>, lim: Limits,
                                      p: Piece, i: nat, j: nat, call: nat, target: nat)
    requires Behaviour(states, events, lim) && Initial(states[0]) && i <= j < |states|
    requires Novel(states[i], p, call, target)
    ensures Novel(states[j], p, call, target)
    decreases j - i
  {
    if i < j {
      StaysNovel(states, events, lim, p, i, j - 1, call, target);
      BehaviourInvariant(states, events, lim, j - 1);
      assert Sequential(states[j - 1], p) && StepAt(states, events, lim, j - 1);
      NextNovel(states[j - 1], lim, events[j - 1], states[j], p, call, target);
    }
  }

  /** In every run of the client: the counters equal the pieces being hashed or marked, both limits
      are respected, and no piece has two hashes in flight. */
  lemma HashersBounded(states: seq<State>, events: seq<Event>, lim: Limits, i: nat, t: TorrentId)
    requires Behaviour(states, events, lim) && Initial(states[0]) && i < |states|
    ensures ActiveHashes(states[i], t) == |OfTorrent(Busy(states[i]), t)| <= lim.perTorrent
    ensures states[i].activeHashers == |Busy(states[i])| <= lim.client
    ensures states[i].hashing !! states[i].marking
  {
    BehaviourInvariant(states, events, lim, i);
    assert TorrentCounted(states[i], lim, t);
  }

  /** A verify call queues the piece at step i and waits for its count to reach the target it took
      then. Once step j shows it reached, some hash of the piece began after the call queued it and was
      recorded before j. */
  lemma VerifyIsFresh(states: seq<State>, events: seq<Event>, lim: Limits, p: Piece, i: nat, j: nat)
    returns (run: HashRun)
    requires Behaviour(states, events, lim) && Initial(states[0]) && i < j < |states|
    requires events[i] == QueueCheck(p)
    requires NumVerifies(states[j], p) >= NextNovelHashCount(states[i], p)
    ensures run in Runs(states[j], p) && states[i + 1].clock <= run.start <= run.finish <= states[j].clock
  {
    var target := NextNovelHashCount(states[i], p);
    BehaviourInvariant(states, events, lim, j);
    assert StepAt(states, events, lim, i);
    assert Novel(states[i + 1], p, states[i + 1].clock, target);
    StaysNovel(states, events, lim, p, i + 1, j, states[i + 1].clock, target);
    assert Sequential(states[j], p);
    run := Runs(states[j], p)[target - 1];
  }

  // ---- What each step does to a piece ------------------------------------------------------------

  // A hash of p begins, by a new hasher or by one that goes on.
  predicate Begins(e: Event, p: Piece) {
    match e
    case Start(q) => q == p
    case FinishRead(_, next) => p in next
    case FinishMark(_, next) => p in next
    case _ => false
  }

  predicate Reads(e: Event, p: Piece) { e.FinishRead? && e.p == p }

  predicate Marks(e: Event, p: Piece) { e.FinishMark? && e.p == p }

  lemma StartPhase(s: State, q: Piece, p: Piece)
    ensures var t := Tick(StartHash(s, q));
            && (p in t.queued <==> p in s.queued && p != q) && (p in t.hashing <==> p in s.hashing || p == q)
            && (p in t.marking <==> p in s.marking) && Runs(t, p) == Runs(s, p) && t.closed == s.closed
            && (p != q && p in s.began ==> p in t.began && t.began[p] == s.began[p])
  {
  }

  lemma ContinuedPhase(s: State, next: set<Piece>, t: State, p: Piece)
    requires Continued(s, next, t)
    ensures p in t.queued <==> p in s.queued && p !in next
    ensures p in t.hashing <==> p in s.hashing || p in next
    ensures (p in t.marking <==> p in s.marking) && Runs(t, p) == Runs(s, p) && t.closed == s.closed
    ensures p !in next && p in s.began ==> p in t.began && t.began[p] == s.began[p]
  {
    if next != {} {
      var q :| next == {q} && t == Tick(StartHash(s, q));
      StartPhase(s, q, p);
    }
  }

  /** A piece leaves the queue when its hash begins, is hashed until the result is read, counts as
      verified once more then, and is marked from then on while its torrent is open. */
  lemma NextPhase(s: State, lim: Limits, e: Event, t: State, p: Piece)
    requires Next(s, lim, e, t)
    ensures p in t.queued <==> e == QueueCheck(p) || (p in s.queued && !Begins(e, p))
    ensures p in t.hashing <==> Begins(e, p) || (p in s.hashing && !Reads(e, p))
    ensures p in t.marking <==> (Reads(e, p) && p.torrent !in s.closed) || (p in s.marking && !Marks(e, p))
    ensures NumVerifies(t, p) == NumVerifies(s, p) + if Reads(e, p) then 1 else 0
    ensures p.torrent in t.closed <==> p.torrent in s.closed || e == CloseTorrent(p.torrent)
    ensures p in s.began && !Begins(e, p) ==> p in t.began && t.began[p] == s.began[p]
  {
    match e
    case Start(q) => StartPhase(s, q, p);
    case FinishRead(q, next) =>
      var r := RecordResult(s, q);
      assert p != q ==> Runs(r, p) == Runs(s, p);
      if q.torrent in s.closed {
        ContinuedPhase(FreeHasher(r, q), next, t, p);
      }
    case FinishMark(q, next) => ContinuedPhase(FreeHasher(s.(marking := s.marking - {q}), q), next, t, p);
    case _ =>
  }

  // How many of the first k events read a result of p.
  ghost function ResultsRead(events: seq<Event>, p: Piece, k: nat): nat
    requires k <= |events|
  {
    if k == 0 then 0 else ResultsRead(events, p, k - 1) + if Reads(events[k - 1], p) then 1 else 0
  }

  /** A piece's verify count is the number of hashes of it that were read to the end. */
  lemma {:induction false} VerifiesAreResults(states: seq<State>, events: seq<Event>, lim: Limits, p: Piece, k: nat)
    requires Behaviour(states, events, lim) && Initial(states[0]) && k < |states|
    ensures NumVerifies(states[k], p) == ResultsRead(events, p, k)
    decreases k
  {
    if k > 0 {
      VerifiesAreResults(states, events, lim, p, k - 1);
      assert StepAt(states, events, lim, k - 1);
      NextPhase(states[k - 1], lim, events[k - 1], states[k], p);
    }
  }

  // Results before number `target` come from hashes begun before the call.
  ghost predicate Stale(s: State, p: Piece, call: nat, target: nat) {
    && NumVerifies(s, p) + (if p in s.hashing then 1 else 0) >= target - 1
    && (forall k :: 0 <= k < NumVerifies(s, p) && k < target - 1 ==> Runs(s, p)[k].start < call)
    && (p in s.hashing && NumVerifies(s, p) < target - 1 ==> p in s.began && s.began[p] < call)
  }

  lemma StaleStep(s: State, t: State, p: Piece, begun: bool, read: bool, call: nat, target: nat)
    requires Stale(s, p, call, target) && Effect(s, t, p) && call <= s.clock
    requires NumVerifies(t, p) == NumVerifies(s, p) + if read then 1 else 0
    requires p in t.hashing <==> begun || (p in s.hashing && !read)
    requires (begun && !read ==> p !in s.hashing) && (read ==> p in s.hashing)
    requires p in s.began && !begun ==> p in t.began && t.began[p] == s.began[p]
    ensures Stale(t, p, call, target)
  {
  }

  lemma NextStale(s: State, lim: Limits, e: Event, t: State, p: Piece, call: nat, target: nat)
    requires (p in s.hashing ==> p in s.began) && Stale(s, p, call, target) && Next(s, lim, e, t) && call <= s.clock
    ensures Stale(t, p, call, target) && call <= t.clock
  {
    StepEffect(s, lim, e, t, p);
    NextPhase(s, lim, e, t, p);
    if Begins(e, p) && !Reads(e, p) {
      BeginsIdle(s, lim, e, t, p);
    }
    ReadsBusy(s, lim, e, t, p);
    StaleStep(s, t, p, Begins(e, p), Reads(e, p), call, target);
  }

  lemma ReadsBusy(s: State, lim: Limits, e: Event, t: State, p: Piece)
    requires Next(s, lim, e, t)
    ensures Reads(e, p) ==> p in s.hashing
  {
  }

  // A hash of p begins only when none is in flight, or the one in flight has just been read.
  lemma BeginsIdle(s: State, lim: Limits, e: Event, t: State, p: Piece)
    requires Next(s, lim, e, t) && Begins(e, p) && !Reads(e, p)
    ensures p !in s.hashing
  {
  }

  lemma HasBegun(states: seq<State>, events: seq<Event>, lim: Limits, p: Piece, k: nat)
    requires Behaviour(states, events, lim) && Initial(states[0]) && k < |states|
    ensures p in states[k].hashing ==> p in states[k].began
  {
    BehaviourInvariant(states, events, lim, k);
  }

  lemma {:induction false} StaysStale(states: seq<State>, events: seq<Event>, lim: Limits,
                                      p: Piece, i: nat, j: nat, call: nat, target: nat)
    requires Behaviour(states, events, lim) && Initial(states[0]) && i <= j < |states|
    requires Stale(states[i], p, call, target) && call <= states[i].clock
    ensures Stale(states[j], p, call, target) && call <= states[j].clock
    decreases j - i
  {
    if i < j {
      StaysStale(states, events, lim, p, i, j - 1, call, target);
      HasBegun(states, events, lim, p, j - 1);
      assert StepAt(states, events, lim, j - 1);
      NextStale(states[j - 1], lim, events[j - 1], states[j], p, call, target);
    }
  }

  /** The target is the least there could be: a result is of a hash begun after the call exactly if its
      number is the target or more. */
  lemma TargetIsLeast(states: seq<State>, events: seq<Event>, lim: Limits, p: Piece, i: nat, j: nat, k: nat)
    requires Behaviour(states, events, lim) && Initial(states[0]) && i < j < |states|
    requires events[i] == QueueCheck(p) && k < NumVerifies(states[j], p)
    ensures states[i + 1].clock <= Runs(states[j], p)[k].start <==> k + 1 >= NextNovelHashCount(states[i], p)
  {
    var call, target := states[i + 1].clock, NextNovelHashCount(states[i], p);
    BehaviourInvariant(states, events, lim, i);
    assert Sequential(states[i], p) && StepAt(states, events, lim, i);
    assert Novel(states[i + 1], p, call, target);
    StaysNovel(states, events, lim, p, i + 1, j, call, target);
    assert Stale(states[i + 1], p, call, target);
    StaysStale(states, events, lim, p, i + 1, j, call, target);
  }

  // ---- The client object -------------------------------------------------------------------------

  /** Picks the most urgent queued piece that is not being hashed or marked; among equals the first. */
  method GetPieceToHash(queue: seq<nat>, busy: set<nat>, priority: map<nat, nat>) returns (ok: bool, best: nat)
    requires forall i <- queue :: i in priority
    ensures ok <==> exists i <- queue :: i !in busy
    ensures ok ==> exists k :: 0 <= k < |queue| && queue[k] == best && best !in busy
                               && (forall i <- queue :: i !in busy ==> priority[i] <= priority[best])
                               && (forall j :: 0 <= j < k && queue[j] !in busy ==> priority[queue[j]] < priority[best])
  {
    ok, best := false, 0;
    ghost var at := 0;
    for k := 0 to |queue|
      invariant ok <==> exists j :: 0 <= j < k && queue[j] !in busy
      invariant ok ==> 0 <= at < k && queue[at] == best && best !in busy && best in priority
      invariant ok ==> forall j :: 0 <= j < k && queue[j] !in busy ==> priority[queue[j]] <= priority[best]
      invariant ok ==> forall j :: 0 <= j < at && queue[j] !in busy ==> priority[queue[j]] < priority[best]
    {
      var i := queue[k];
      if i in busy {
        continue;
      }
      if !ok || priority[i] > priority[best] {
        ok, best := true, i;
        at := k;
      }
    }
  }

  // Only some queued pieces moved on to being hashed.
  ghost predicate Started(s: State, t: State) {
    && t.marking == s.marking && t.runs == s.runs && t.closed == s.closed
    && s.hashing <= t.hashing && t.hashing + t.queued == s.hashing + s.queued
  }

  lemma StartedNothing(s: State)
    ensures Started(s, s)
  {
  }

  lemma StartedTwice(s: State, t: State, u: State)
    requires Started(s, t) && Started(t, u)
    ensures Started(s, u)
  {
  }

  function ReadyOf(queued: set<Piece>, hashing: set<Piece>, marking: set<Piece>, t: TorrentId): set<Piece> {
    set p | p in queued && p.torrent == t && p !in hashing && p !in marking
  }

  lemma NoneReady(queued: set<Piece>, hashing: set<Piece>, marking: set<Piece>, t: TorrentId)
    requires ReadyOf(queued, hashing, marking, t) == {}
    ensures forall p <- queued :: p.torrent == t ==> p in hashing || p in marking
  {
    forall p | p in queued && p.torrent == t ensures p in hashing || p in marking {
      assert p !in ReadyOf(queued, hashing, marking, t);
    }
  }

  lemma OneLessReady(queued: set<Piece>, hashing: set<Piece>, marking: set<Piece>, t: TorrentId, p: Piece)
    requires p in ReadyOf(queued, hashing, marking, t)
    ensures ReadyOf(queued - {p}, hashing + {p}, marking, t) == ReadyOf(queued, hashing, marking, t) - {p}
  {
  }

  // No room, or nothing ready.
  ghost predicate NothingToStart(s: State, lim: Limits, t: TorrentId) {
    || t in s.closed || ActiveHashes(s, t) >= lim.perTorrent || s.activeHashers >= lim.client
    || forall p <- s.queued :: p.torrent == t ==> p in s.hashing || p in s.marking
  }

  // A torrent without room or without ready pieces stays so while others start.
  lemma StaysFull(s: State, t: State, lim: Limits, x: TorrentId)
    requires Counted(s, lim) && Counted(t, lim) && Started(s, t) && NothingToStart(s, lim, x)
    ensures NothingToStart(t, lim, x)
  {
    assert TorrentCounted(s, lim, x) && TorrentCounted(t, lim, x);
    SubsetSize(OfTorrent(Busy(s), x), OfTorrent(Busy(t), x));
    SubsetSize(Busy(s), Busy(t));
    forall p | p in ReadyOf(t.queued, t.hashing, t.marking, x) ensures p in ReadyOf(s.queued, s.hashing, s.marking, x) {
    }
  }

  lemma StartValid(s: State, lim: Limits, p: Piece)
    requires Counted(s, lim) && AllSequential(s) && Pickable(s, p) && MayStart(s, lim, p.torrent)
    ensures Counted(Tick(StartHash(s, p)), lim) && AllSequential(Tick(StartHash(s, p)))
    ensures Started(s, Tick(StartHash(s, p)))
  {
    StartCounted(s, lim, p);
    NextSequential(s, lim, Start(p), Tick(StartHash(s, p)));
  }

  class Client {
    const limits: Limits
    var queued: set<Piece>
    var hashing: set<Piece>
    var marking: set<Piece>
    var runs: map<Piece, seq<HashRun>>
    var began: map<Piece, nat>
    var activeHashes: map<TorrentId, nat>
    var activeHashers: nat
    var closed: set<TorrentId>
    var clock: nat

    ghost function View(): State
      reads this
    {
      State(queued, hashing, marking, runs, began, activeHashes, activeHashers, closed, clock)
    }

    ghost predicate Valid()
      reads this
    {
      Counted(View(), limits) && AllSequential(View())
    }

    constructor (limits: Limits)
      ensures Valid() && Initial(View()) && this.limits == limits
    {
      this.limits := limits;
      queued, hashing, marking, runs, began := {}, {}, {}, map[], map[];
      activeHashes, activeHashers, closed, clock := map[], 0, {}, 0;
      new;
      forall t ensures TorrentCounted(View(), this.limits, t) {
        assert OfTorrent(Busy(View()), t) == {};
      }
    }

    // Whether the limits allow is for the caller to see: a hasher that goes on does not ask.
    method Begin(p: Piece)
      requires Pickable(View(), p)
      modifies this
      ensures View() == Tick(StartHash(old(View()), p))
    {
      queued, hashing, began := queued - {p}, hashing + {p}, began[p := clock];
      activeHashes := activeHashes[p.torrent := (if p.torrent in activeHashes then activeHashes[p.torrent] else 0) + 1];
      activeHashers, clock := activeHashers + 1, clock + 1;
    }

    function Ready(t: TorrentId): set<Piece>
      reads this
    {
      ReadyOf(queued, hashing, marking, t)
    }

    predicate CanStart(t: TorrentId)
      reads this
    {
      && t !in closed && (if t in activeHashes then activeHashes[t] else 0) < limits.perTorrent
      && activeHashers < limits.client
    }

    // Starts one hasher; what is ready elsewhere stays ready.
    method StartOne(t: TorrentId, p: Piece)
      requires Valid() && p in Ready(t) && CanStart(t)
      modifies this
      ensures Valid() && Started(old(View()), View()) && Ready(t) == old(Ready(t)) - {p}
      ensures activeHashers == old(activeHashers) + 1
    {
      ghost var s := View();
      StartValid(s, limits, p);
      OneLessReady(queued, hashing, marking, t, p);
      Begin(p);
      assert View() == Tick(StartHash(s, p));
    }

    /** Starts hashers of torrent t for as long as the limits and its queue allow, and no longer. */
    method StartTorrentHashers(t: TorrentId)
      requires Valid()
      modifies this
      ensures Valid() && Started(old(View()), View()) && activeHashers >= old(activeHashers)
      ensures NothingToStart(View(), limits, t)
    {
      ghost var before := View();
      StartedNothing(before);
      while Ready(t) != {} && CanStart(t)
        invariant Valid() && Started(before, View()) && activeHashers >= before.activeHashers
        decreases |Ready(t)|
      {
        ghost var mid := View();
        var p :| p in Ready(t);
        StartOne(t, p);
        StartedTwice(before, mid, View());
      }
      if Ready(t) == {} {
        NoneReady(queued, hashing, marking, t);
      }
    }

    /** The client's pass over its torrents, in any order: afterwards all hashers are busy, or no torrent
        has both room and a piece ready. */
    method StartPieceHashers(torrents: seq<TorrentId>)
      requires Valid()
      modifies this
      ensures Valid() && Started(old(View()), View())
      ensures activeHashers >= limits.client || forall t <- torrents :: NothingToStart(View(), limits, t)
    {
      ghost var before := View();
      StartedNothing(before);
      for i := 0 to |torrents|
        invariant Valid() && Started(before, View())
        invariant forall j :: 0 <= j < i ==> NothingToStart(View(), limits, torrents[j])
      {
        if activeHashers >= limits.client {
          return;
        }
        ghost var mid := View();
        StartTorrentHashers(torrents[i]);
        StartedTwice(before, mid, View());
        forall j | 0 <= j < i ensures NothingToStart(View(), limits, torrents[j]) {
          StaysFull(mid, View(), limits, torrents[j]);
        }
      }
    }

    /** Queues a piece for hashing and returns the verify count to wait for. */
    method QueuePieceCheck(p: Piece) returns (target: nat)
      requires Valid()
      modifies this
      ensures Valid() && target == NextNovelHashCount(old(View()), p)
      ensures p in queued || p in hashing
      ensures marking == old(marking) && runs == old(runs) && old(hashing) <= hashing
      ensures queued + hashing == old(queued + hashing) + {p}
    {
      target := (if p in runs then |runs[p]| else 0) + 1;
      if p in hashing {
        target := target + 1;
      }
      if p in queued {
        return;
      }
      ghost var before := View();
      queued := queued + {p};
      clock := clock + 1;
      NextCounted(before, limits, QueueCheck(p), View());
      NextSequential(before, limits, QueueCheck(p), View());
      StartTorrentHashers(p.torrent);
    }
  }
}
