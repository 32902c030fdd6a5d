/**
 * How many peers have each piece. Counters are adjusted as HAVE, BITFIELD, HAVE ALL, HAVE NONE
 * (BEP 3 and BEP 6) arrive and as connections close; peers that have everything are kept apart in a
 * set, and the counters are relative to its size.
 */
module Availability {
  import opened Basics

  type PeerId = nat

  datatype Option<T> = None | Some(value: T)

  datatype Conn = Conn(pieces: set<nat>, sentHaveAll: bool, closed: bool)

  // `relative` has a counter per piece once the info is known, and is empty before.
  datatype State = State(
    numPieces: Option<nat>,
    conns: set<PeerId>,
    peers: map<PeerId, Conn>,
    withAll: set<PeerId>,
    relative: map<nat, int>)

  datatype Outcome = Running(s: State) | Panicked

  // ---- What the counters must say ----------------------------------------------------------------

  // The pieces a connection is counted for.
  function Claimed(c: Conn): set<nat> {
    if c.closed || c.sentHaveAll then {} else c.pieces
  }

  function Claimers(peers: map<PeerId, Conn>, i: nat): set<PeerId> {
    set p | p in peers && i in Claimed(peers[p])
  }

  ghost predicate ConnRight(s: State, p: PeerId) {
    p in s.peers ==>
      && (p in s.withAll <==> !s.peers[p].closed && s.peers[p].sentHaveAll)
      && (s.peers[p].sentHaveAll ==> s.peers[p].pieces == {})
      && (!s.peers[p].closed ==> p in s.conns)
      && (s.numPieces.Some? ==> forall i <- Claimed(s.peers[p]) :: i < s.numPieces.value)
  }

  ghost predicate CounterRight(s: State, i: nat) {
    s.numPieces.Some? && i < s.numPieces.value ==> i in s.relative && s.relative[i] == |Claimers(s.peers, i)|
  }

  /** Each counter is the number of open connections outside `withAll` that claim the piece. */
  ghost predicate Exact(s: State) {
    && s.withAll <= s.peers.Keys && s.conns <= s.peers.Keys
    && (forall p :: ConnRight(s, p))
    && (forall i :: CounterRight(s, i))
    && (forall i <- s.relative :: s.numPieces.Some? && i < s.numPieces.value)
  }

  // ---- Operations --------------------------------------------------------------------------------

  function Bit(b: bool): int { if b then 1 else 0 }

  function Put(s: State, p: PeerId, c: Conn): State { s.(peers := s.peers[p := c]) }

  // Decrements the lost pieces' counters and increments the gained ones'.
  function Shift(s: State, lost: set<nat>, gained: set<nat>): Outcome {
    if s.numPieces.None? then Running(s)
    else if !(lost + gained <= s.relative.Keys) || exists i <- lost :: s.relative[i] <= 0 then Panicked
    else Running(s.(relative := map i | i in s.relative :: s.relative[i] - Bit(i in lost) + Bit(i in gained)))
  }

  predicate HasPiece(s: State, c: Conn, i: nat) {
    c.sentHaveAll || (s.numPieces.Some? && |c.pieces| == s.numPieces.value) || i in c.pieces
  }

  function Have(s: State, p: PeerId, i: nat): Outcome
    requires p in s.peers
  {
    var c := s.peers[p];
    if s.numPieces.Some? && i >= s.numPieces.value then Running(s)
    else if HasPiece(s, c, i) then Running(s)
    else
      var o := Shift(s, {}, {i});
      if o.Panicked? then o else Running(Put(o.s, p, c.(pieces := c.pieces + {i})))
  }

  function HaveAll(s: State, p: PeerId): Outcome
    requires p in s.peers
  {
    var c := s.peers[p];
    var o := Shift(s, c.pieces, {});
    if o.Panicked? then o
    else Running(Put(o.s.(withAll := o.s.withAll + {p}), p, c.(sentHaveAll := true, pieces := {})))
  }

  function Bits(bf: seq<bool>): set<nat> { set i: nat | i < |bf| && bf[i] }

  // Known excess pieces are ignored.
  function Trim(s: State, bf: seq<bool>): seq<bool> {
    if s.numPieces.Some? && |bf| > s.numPieces.value then bf[..s.numPieces.value] else bf
  }

  function Bitfield(s: State, p: PeerId, bf: seq<bool>): Outcome
    requires p in s.peers
  {
    var c := s.peers[p];
    var bm := Bits(Trim(s, bf));
    if s.numPieces.Some? && |bm| == s.numPieces.value then HaveAll(s, p)
    else if c.sentHaveAll && (p !in s.withAll || c.pieces != {}) then Panicked
    else
      var s1 := if c.sentHaveAll then s.(withAll := s.withAll - {p}) else s;
      var o := Shift(s1, c.pieces - bm, bm - c.pieces);
      if o.Panicked? then o else Running(Put(o.s, p, c.(pieces := bm, sentHaveAll := false)))
  }

  // Takes back what a connection contributed.
  function Release(s: State, p: PeerId): Outcome
    requires p in s.peers
  {
    if p in s.withAll then Running(s.(withAll := s.withAll - {p}))
    else Shift(s, s.peers[p].pieces, {})
  }

  function HaveNone(s: State, p: PeerId): Outcome
    requires p in s.peers
  {
    var c := s.peers[p];
    var o := if c.sentHaveAll then Running(s) else Release(s, p);
    if o.Panicked? then o else Running(Put(o.s, p, c.(pieces := {}, sentHaveAll := false)))
  }

  function ClosePeer(s: State, p: PeerId): Outcome
    requires p in s.peers
  {
    var c := s.peers[p];
    if c.closed then Running(s)
    else
      var o := Release(s, p);
      if o.Panicked? then o else Running(Put(o.s, p, c.(closed := true)))
  }

  // Listed connections counted for piece i when the info arrives.
  function Selected(s: State, i: nat): set<PeerId> {
    set p | p in s.conns && p in s.peers && p !in s.withAll && HasPiece(s, s.peers[p], i)
  }

  function Range(n: nat): (r: set<nat>)
    ensures forall i: nat :: i in r <==> i < n
    ensures |r| == n
  {
    if n == 0 then {} else Range(n - 1) + {n - 1}
  }

  function Trimmed(c: Conn, n: nat): Conn { c.(pieces := c.pieces * Range(n)) }

  function Counted(s: State, n: nat): map<nat, int> {
    map i: nat | i in Range(n) :: |Selected(s, i)|
  }

  function TrimAll(peers: map<PeerId, Conn>, conns: set<PeerId>, n: nat): map<PeerId, Conn> {
    map p | p in peers :: if p in conns then Trimmed(peers[p], n) else peers[p]
  }

  function SetInfo(s: State, n: nat): State {
    var known := s.(numPieces := Some(n));
    known.(relative := Counted(known, n), peers := TrimAll(s.peers, s.conns, n))
  }

  // ---- One connection's claim changes ------------------------------------------------------------

  lemma ClaimersUpdate(peers: map<PeerId, Conn>, p: PeerId, c: Conn, i: nat)
    requires p in peers
    ensures |Claimers(peers[p := c], i)|
            == |Claimers(peers, i)| - Bit(i in Claimed(peers[p])) + Bit(i in Claimed(c))
  {
    var others := set q | q in peers && q != p && i in Claimed(peers[q]);
    assert Claimers(peers, i) == others + if i in Claimed(peers[p]) then {p} else {};
    assert Claimers(peers[p := c], i) == others + if i in Claimed(c) then {p} else {};
  }

  /** Shifting the counters by exactly what a connection's claim loses and gains never panics and
      leaves every counter right. */
  lemma ShiftRight(s: State, p: PeerId, c: Conn, lost: set<nat>, gained: set<nat>)
    requires Exact(s) && p in s.peers
    requires lost == Claimed(s.peers[p]) - Claimed(c) && gained == Claimed(c) - Claimed(s.peers[p])
    requires s.numPieces.Some? ==> forall i <- Claimed(c) :: i < s.numPieces.value
    ensures Shift(s, lost, gained).Running?
    ensures forall i :: CounterRight(Put(Shift(s, lost, gained).s, p, c), i)
  {
    if s.numPieces.Some? {
      assert ConnRight(s, p);
      forall i | i in lost ensures i in s.relative && s.relative[i] > 0 {
        assert CounterRight(s, i);
        assert p in Claimers(s.peers, i);
      }
      forall i | i in gained ensures i in s.relative {
        assert CounterRight(s, i);
      }
      forall i ensures CounterRight(Put(Shift(s, lost, gained).s, p, c), i) {
        assert CounterRight(s, i);
        ClaimersUpdate(s.peers, p, c, i);
      }
    } else {
      forall i ensures CounterRight(Put(Shift(s, lost, gained).s, p, c), i) {
      }
    }
  }

  lemma HaveExact(s: State, p: PeerId, i: nat)
    requires Exact(s) && p in s.peers && !s.peers[p].closed
    ensures Have(s, p, i).Running? && Exact(Have(s, p, i).s)
  {
    var c := s.peers[p];
    assert ConnRight(s, p);
    if !(s.numPieces.Some? && i >= s.numPieces.value) && !HasPiece(s, c, i) {
      var c1 := c.(pieces := c.pieces + {i});
      assert Claimed(c) - Claimed(c1) == {} && Claimed(c1) - Claimed(c) == {i};
      ShiftRight(s, p, c1, {}, {i});
      OthersRight(s, Have(s, p, i).s, p);
    }
  }

  // The other connections are untouched, so only p needs looking at.
  lemma OthersRight(s: State, t: State, p: PeerId)
    requires Exact(s) && p in s.peers && t.peers.Keys == s.peers.Keys && t.numPieces == s.numPieces
    requires t.conns == s.conns && t.withAll - {p} == s.withAll - {p}
    requires forall q <- s.peers :: q != p ==> t.peers[q] == s.peers[q]
    ensures forall q :: q != p ==> ConnRight(t, q)
    ensures t.withAll <= t.peers.Keys && t.conns <= t.peers.Keys
  {
    forall q | q != p ensures ConnRight(t, q) {
      assert ConnRight(s, q);
      assert q in t.withAll <==> q in t.withAll - {p};
      assert q in s.withAll <==> q in s.withAll - {p};
    }
    forall q | q in t.withAll ensures q in t.peers {
      if q != p {
        assert q in t.withAll - {p};
      }
    }
  }

  lemma HaveAllExact(s: State, p: PeerId)
    requires Exact(s) && p in s.peers && !s.peers[p].closed
    ensures HaveAll(s, p).Running? && Exact(HaveAll(s, p).s)
  {
    var c := s.peers[p];
    assert ConnRight(s, p);
    var c1 := c.(sentHaveAll := true, pieces := {});
    ShiftRight(s, p, c1, c.pieces, {});
    var t := HaveAll(s, p).s;
    OthersRight(s, t, p);
    SameCounters(Put(Shift(s, c.pieces, {}).s, p, c1), t);
  }

  lemma SameCounters(s: State, t: State)
    requires s.numPieces == t.numPieces && s.peers == t.peers && s.relative == t.relative
    requires forall i :: CounterRight(s, i)
    ensures forall i :: CounterRight(t, i)
  {
    forall i ensures CounterRight(t, i) {
      assert CounterRight(s, i);
    }
  }

  lemma BitfieldExact(s: State, p: PeerId, bf: seq<bool>)
    requires Exact(s) && p in s.peers && !s.peers[p].closed
    ensures Bitfield(s, p, bf).Running? && Exact(Bitfield(s, p, bf).s)
  {
    var c := s.peers[p];
    assert ConnRight(s, p);
    var bm := Bits(Trim(s, bf));
    if s.numPieces.Some? && |bm| == s.numPieces.value {
      HaveAllExact(s, p);
    } else {
      var c1 := c.(pieces := bm, sentHaveAll := false);
      assert c.pieces - bm == Claimed(c) - Claimed(c1);
      assert bm - c.pieces == Claimed(c1) - Claimed(c);
      ShiftRight(s, p, c1, c.pieces - bm, bm - c.pieces);
      var t := Bitfield(s, p, bf).s;
      OthersRight(s, t, p);
      SameCounters(Put(Shift(s, c.pieces - bm, bm - c.pieces).s, p, c1), t);
    }
  }

  lemma ReleaseExact(s: State, p: PeerId, c1: Conn)
    requires Exact(s) && p in s.peers && !s.peers[p].closed && Claimed(c1) == {}
    ensures Release(s, p).Running?
    ensures forall i :: CounterRight(Put(Release(s, p).s, p, c1), i)
  {
    assert ConnRight(s, p);
    var c := s.peers[p];
    assert c.sentHaveAll ==> Claimed(c) == {} == c.pieces;
    ShiftRight(s, p, c1, c.pieces, {});
    if p in s.withAll {
      ShiftNothing(s);
      SameCounters(Put(Shift(s, c.pieces, {}).s, p, c1), Put(Release(s, p).s, p, c1));
    }
  }

  lemma ShiftNothing(s: State)
    ensures Shift(s, {}, {}) == Running(s)
  {
    if s.numPieces.Some? {
      assert (map i | i in s.relative :: s.relative[i] - Bit(i in {}) + Bit(i in {})) == s.relative;
    }
  }

  lemma HaveNoneExact(s: State, p: PeerId)
    requires Exact(s) && p in s.peers && !s.peers[p].closed && !s.peers[p].sentHaveAll
    ensures HaveNone(s, p).Running? && Exact(HaveNone(s, p).s)
  {
    assert ConnRight(s, p);
    ReleaseExact(s, p, s.peers[p].(pieces := {}, sentHaveAll := false));
    OthersRight(s, HaveNone(s, p).s, p);
  }

  lemma ClosePeerExact(s: State, p: PeerId)
    requires Exact(s) && p in s.peers
    ensures ClosePeer(s, p).Running? && Exact(ClosePeer(s, p).s)
  {
    assert ConnRight(s, p);
    if !s.peers[p].closed {
      ReleaseExact(s, p, s.peers[p].(closed := true));
      OthersRight(s, ClosePeer(s, p).s, p);
    }
  }

  // ---- The info arrives --------------------------------------------------------------------------

  /** Listed connections for which the count taken when the info arrives is right: an open one that
      happens to claim as many pieces as the torrent has claims exactly those, and a closed one that
      is still listed claims nothing. */
  ghost predicate CountsRight(s: State, n: nat, p: PeerId) {
    p in s.conns && p in s.peers && p !in s.withAll && n > 0 ==>
      var c := s.peers[p];
      if c.closed then !c.sentHaveAll && c.pieces !! Range(n) && |c.pieces| != n
      else |c.pieces| == n ==> c.pieces == Range(n)
  }

  ghost predicate InfoReady(s: State, n: nat) {
    forall p :: CountsRight(s, n, p)
  }

  lemma SelectedSound(s: State, n: nat, i: nat)
    requires Exact(s) && i < n && s.numPieces.None?
    ensures Claimers(SetInfo(s, n).peers, i) <= Selected(s.(numPieces := Some(n)), i)
  {
    forall p | p in Claimers(SetInfo(s, n).peers, i) ensures p in Selected(s.(numPieces := Some(n)), i) {
      assert ConnRight(s, p);
    }
  }

  lemma SelectedComplete(s: State, n: nat, i: nat, p: PeerId)
    requires Exact(s) && i < n && s.numPieces.None? && CountsRight(s, n, p)
    ensures p in Selected(s.(numPieces := Some(n)), i) ==> p in Claimers(SetInfo(s, n).peers, i)
  {
    assert ConnRight(s, p);
  }

  // A connection that is not counted right leaves some counter too high.
  lemma SelectedTooMany(s: State, n: nat, p: PeerId) returns (i: nat)
    requires Exact(s) && s.numPieces.None? && !CountsRight(s, n, p)
    ensures i < n && p in Selected(s.(numPieces := Some(n)), i) && p !in Claimers(SetInfo(s, n).peers, i)
  {
    assert ConnRight(s, p);
    var c := s.peers[p];
    if c.closed {
      if c.sentHaveAll || |c.pieces| == n {
        i := 0;
      } else {
        i :| i in c.pieces && i in Range(n);
      }
    } else {
      SameSizeDiffers(c.pieces, n);
      i :| i < n && i !in c.pieces;
    }
  }

  lemma SameSizeDiffers(a: set<nat>, n: nat)
    requires |a| == n && a != Range(n)
    ensures exists i: nat :: i < n && i !in a
  {
    if forall i: nat :: i < n ==> i in a {
      assert Range(n) <= a;
      SubsetSize(Range(n), a);
    }
  }

  lemma StrictlyMore(a: set<PeerId>, b: set<PeerId>, p: PeerId)
    requires a <= b && p in b && p !in a
    ensures |a| < |b|
  {
    SubsetSize(a, b);
  }

  /** When the info arrives the counters become right exactly if every listed connection is one the
      count is right for. */
  lemma SetInfoExact(s: State, n: nat)
    requires Exact(s) && s.numPieces.None?
    ensures Exact(SetInfo(s, n)) <==> InfoReady(s, n)
  {
    var t := SetInfo(s, n);
    if InfoReady(s, n) {
      forall i: nat ensures CounterRight(t, i) {
        if i < n {
          SelectedSound(s, n, i);
          forall p | p in Selected(s.(numPieces := Some(n)), i) ensures p in Claimers(t.peers, i) {
            SelectedComplete(s, n, i, p);
          }
          assert Claimers(t.peers, i) == Selected(s.(numPieces := Some(n)), i);
        }
      }
      forall p ensures ConnRight(t, p) {
        assert ConnRight(s, p);
      }
    } else {
      var p :| !CountsRight(s, n, p);
      var i := SelectedTooMany(s, n, p);
      SelectedSound(s, n, i);
      StrictlyMore(Claimers(t.peers, i), Selected(s.(numPieces := Some(n)), i), p);
      assert !CounterRight(t, i);
    }
  }

  // ---- Runs --------------------------------------------------------------------------------------

  datatype Event =
    | Connect(p: PeerId)
    | GotHave(p: PeerId, i: nat)
    | GotBitfield(p: PeerId, bf: seq<bool>)
    | GotHaveAll(p: PeerId)
    | GotHaveNone(p: PeerId)
    | GotInfo(n: nat)
    | Close(p: PeerId)
    | Delete(p: PeerId)

  predicate Open(s: State, p: PeerId) { p in s.peers && !s.peers[p].closed }

  /** One critical section; messages of closed connections are no longer processed. */
  function Next(s: State, e: Event): Outcome {
    match e
    case Connect(p) =>
      if p in s.peers then Running(s)
      else Running(Put(s.(conns := s.conns + {p}), p, Conn({}, false, false)))
    case GotHave(p, i) => if Open(s, p) then Have(s, p, i) else Running(s)
    case GotBitfield(p, bf) => if Open(s, p) then Bitfield(s, p, bf) else Running(s)
    case GotHaveAll(p) => if Open(s, p) then HaveAll(s, p) else Running(s)
    case GotHaveNone(p) => if Open(s, p) then HaveNone(s, p) else Running(s)
    case GotInfo(n) => if s.numPieces.Some? then Running(s) else Running(SetInfo(s, n))
    case Close(p) => if p in s.peers then ClosePeer(s, p) else Running(s)
    case Delete(p) =>
      if p !in s.peers || !s.peers[p].closed then Running(s)
      else if s.conns - {p} == {} && s.withAll != {} then Panicked
      else Running(s.(conns := s.conns - {p}))
  }

  /** What must be true before an event for the counters to stay right. */
  ghost predicate Keeps(s: State, e: Event) {
    match e
    case GotHaveNone(p) => !(Open(s, p) && s.peers[p].sentHaveAll)
    case GotInfo(n) => s.numPieces.Some? || InfoReady(s, n)
    case _ => true
  }

  lemma ConnectExact(s: State, p: PeerId)
    requires Exact(s) && p !in s.peers
    ensures Exact(Put(s.(conns := s.conns + {p}), p, Conn({}, false, false)))
  {
    var t := Put(s.(conns := s.conns + {p}), p, Conn({}, false, false));
    forall i ensures CounterRight(t, i) {
      assert CounterRight(s, i);
      assert Claimers(t.peers, i) == Claimers(s.peers, i);
    }
    forall q ensures ConnRight(t, q) {
      assert ConnRight(s, q);
    }
  }

  lemma DeleteExact(s: State, p: PeerId)
    requires Exact(s) && p in s.peers && s.peers[p].closed
    ensures Next(s, Delete(p)).Running? && Exact(Next(s, Delete(p)).s)
  {
    forall q | q in s.withAll ensures q in s.conns - {p} {
      assert ConnRight(s, q);
    }
    var t := s.(conns := s.conns - {p});
    forall q ensures ConnRight(t, q) {
      assert ConnRight(s, q);
    }
    SameCounters(s, t);
  }

  lemma HaveNoneBreaks(s: State, p: PeerId)
    requires Exact(s) && Open(s, p) && s.peers[p].sentHaveAll
    ensures HaveNone(s, p).Running? && !Exact(HaveNone(s, p).s)
  {
    assert ConnRight(s, p);
    assert !ConnRight(HaveNone(s, p).s, p);
  }

  /** From right counters, every event goes through without a panic, and the counters are right
      afterwards exactly when `Keeps` held before: no HAVE NONE from a peer that sent HAVE ALL, and
      no info that arrives while a listed connection would be counted wrongly. */
  lemma NextExact(s: State, e: Event)
    requires Exact(s)
    ensures Next(s, e).Running?
    ensures Exact(Next(s, e).s) <==> Keeps(s, e)
  {
    match e
    case Connect(p) => if p !in s.peers { ConnectExact(s, p); }
    case GotHave(p, i) => if Open(s, p) { HaveExact(s, p, i); }
    case GotBitfield(p, bf) => if Open(s, p) { BitfieldExact(s, p, bf); }
    case GotHaveAll(p) => if Open(s, p) { HaveAllExact(s, p); }
    case GotHaveNone(p) =>
      if Open(s, p) {
        if s.peers[p].sentHaveAll {
          HaveNoneBreaks(s, p);
        } else {
          HaveNoneExact(s, p);
        }
      }
    case GotInfo(n) => if s.numPieces.None? { SetInfoExact(s, n); }
    case Close(p) => if p in s.peers { ClosePeerExact(s, p); }
    case Delete(p) => if p in s.peers && s.peers[p].closed { DeleteExact(s, p); }
  }

  function Run(s: State, es: seq<Event>): Outcome
    decreases |es|
  {
    if es == [] then Running(s)
    else
      var o := Next(s, es[0]);
      if o.Panicked? then o else Run(o.s, es[1..])
  }

  ghost predicate AllKept(s: State, es: seq<Event>)
    decreases |es|
  {
    es == [] || (Keeps(s, es[0]) && Next(s, es[0]).Running? && AllKept(Next(s, es[0]).s, es[1..]))
  }

  const Start: State := State(None, {}, map[], {}, map[])

  lemma {:induction false} RunExact(s: State, es: seq<Event>)
    requires Exact(s) && AllKept(s, es)
    ensures Run(s, es).Running? && Exact(Run(s, es).s)
    decreases |es|
  {
    if es != [] {
      NextExact(s, es[0]);
      RunExact(Next(s, es[0]).s, es[1..]);
    }
  }

  lemma StartExact()
    ensures Exact(Start)
  {
    forall p ensures ConnRight(Start, p) {}
    forall i ensures CounterRight(Start, i) {}
  }

  lemma TotalBounded(s: State, i: nat)
    requires Exact(s) && i in s.relative
    ensures s.relative[i] >= 0 && |s.withAll| + s.relative[i] <= |s.conns|
  {
    assert CounterRight(s, i);
    var claimers := Claimers(s.peers, i);
    forall p | p in claimers + s.withAll ensures p in s.conns && !(p in claimers && p in s.withAll) {
      assert ConnRight(s, p);
    }
    assert |claimers + s.withAll| == |claimers| + |s.withAll|;
    if claimers + s.withAll != s.conns {
      SubsetSize(claimers + s.withAll, s.conns);
    }
  }

  /** In every run whose events keep the counters right there is no panic; no counter is negative;
      total availability is at most the number of listed connections; and once all connections are
      closed every counter is zero and nobody is recorded as having everything. */
  lemma RunsCountExactly(es: seq<Event>)
    requires AllKept(Start, es)
    ensures Run(Start, es).Running?
    ensures var s := Run(Start, es).s;
            && (forall i <- s.relative :: s.relative[i] == |Claimers(s.peers, i)|)
            && (forall i <- s.relative :: |s.withAll| + s.relative[i] <= |s.conns|)
            && ((forall p <- s.peers :: s.peers[p].closed)
                ==> s.withAll == {} && forall i <- s.relative :: s.relative[i] == 0)
  {
    StartExact();
    RunExact(Start, es);
    var s := Run(Start, es).s;
    forall i | i in s.relative
      ensures s.relative[i] == |Claimers(s.peers, i)| && |s.withAll| + s.relative[i] <= |s.conns|
    {
      assert CounterRight(s, i);
      TotalBounded(s, i);
    }
    if forall p <- s.peers :: s.peers[p].closed {
      forall p ensures p !in s.withAll {
        assert ConnRight(s, p);
      }
      forall i | i in s.relative ensures s.relative[i] == 0 {
        assert Claimers(s.peers, i) == {};
      }
    }
  }

  // ---- What the peers said -----------------------------------------------------------------------

  // The same told by the messages alone, without looking at any state.

  // Whether p says it has piece i after an event, given what it said before.
  predicate Said(e: Event, p: PeerId, i: nat, before: bool) {
    match e
    case GotHave(q, j) => before || (q == p && i == j)
    case GotBitfield(q, bf) => if q == p then i < |bf| && bf[i] else before
    case GotHaveAll(q) => before || q == p
    case GotHaveNone(q) => before && q != p
    case _ => before
  }

  // A connection is open from its Connect to its Close.
  ghost predicate Talking(es: seq<Event>, p: PeerId)
    decreases |es|
  {
    es != [] &&
    var before := es[..|es| - 1];
    match es[|es| - 1]
    case Connect(q) => Talking(before, p) || (q == p && Connect(p) !in before)
    case Close(q) => Talking(before, p) && q != p
    case _ => Talking(before, p)
  }

  // By what it last sent while open, p has piece i.
  ghost predicate Says(es: seq<Event>, p: PeerId, i: nat)
    decreases |es|
  {
    es != [] &&
    var before := es[..|es| - 1];
    if Talking(before, p) then Said(es[|es| - 1], p, i, Says(before, p, i)) else Says(before, p, i)
  }

  // A connection is listed from its Connect until it is deleted, which takes a Close.
  ghost predicate Listed(es: seq<Event>, p: PeerId)
    decreases |es|
  {
    es != [] &&
    var before := es[..|es| - 1];
    match es[|es| - 1]
    case Connect(q) => Listed(before, p) || (q == p && Connect(p) !in before)
    case Delete(q) => Listed(before, p) && (q != p || Talking(before, p))
    case _ => Listed(before, p)
  }

  // The piece count is that of the first metadata to arrive.
  ghost function InfoOf(es: seq<Event>): Option<nat>
    decreases |es|
  {
    if es == [] then None
    else
      var before, e := es[..|es| - 1], es[|es| - 1];
      if InfoOf(before).None? && e.GotInfo? then Some(e.n) else InfoOf(before)
  }

  // The open connections that say they have piece i.
  ghost function Sayers(es: seq<Event>, i: nat): set<PeerId> {
    set e | e in es && e.Connect? && Talking(es, e.p) && Says(es, e.p, i) :: e.p
  }

  // A piece of the torrent, as far as is known.
  predicate Possible(s: State, i: nat) { s.numPieces.Some? ==> i < s.numPieces.value }

  ghost predicate TidyConn(s: State, p: PeerId) {
    Open(s, p) ==> p in s.conns && forall i <- s.peers[p].pieces :: Possible(s, i)
  }

  ghost predicate Tidy(s: State) { forall p :: TidyConn(s, p) }

  lemma FullMeansAll(a: set<nat>, n: nat, i: nat)
    requires |a| == n && i < n && forall j <- a :: j < n
    ensures i in a
  {
    if i !in a {
      SubsetSize(a, Range(n));
      SubsetSize(a, Range(n) - {i});
    }
  }

  // What is recorded of an open connection, once its pieces are tidy.
  lemma HasWhen(s: State, p: PeerId, i: nat)
    requires TidyConn(s, p) && Open(s, p) && Possible(s, i)
    ensures HasPiece(s, s.peers[p], i) <==> s.peers[p].sentHaveAll || i in s.peers[p].pieces
  {
    if s.numPieces.Some? && |s.peers[p].pieces| == s.numPieces.value {
      FullMeansAll(s.peers[p].pieces, s.numPieces.value, i);
    }
  }

  // Nothing but the counters changes.
  lemma ShiftFrame(s: State, lost: set<nat>, gained: set<nat>)
    requires Shift(s, lost, gained).Running?
    ensures Shift(s, lost, gained).s == s.(relative := Shift(s, lost, gained).s.relative)
  {
  }

  // What one message changes: the sender's record, and never its openness.
  ghost predicate OnlySender(s: State, t: State, p: PeerId) {
    && p in s.peers && p in t.peers && t == s.(peers := s.peers[p := t.peers[p]], withAll := t.withAll, relative := t.relative)
    && t.peers[p].closed == s.peers[p].closed
  }

  lemma HaveRecorded(s: State, p: PeerId, j: nat)
    requires Open(s, p) && Have(s, p, j).Running?
    ensures var t, c := Have(s, p, j).s, s.peers[p];
            && OnlySender(s, t, p) && t.peers[p].sentHaveAll == c.sentHaveAll
            && t.peers[p].pieces == if Possible(s, j) && !HasPiece(s, c, j) then c.pieces + {j} else c.pieces
  {
    assert s.peers == s.peers[p := s.peers[p]];
  }

  lemma BitfieldRecorded(s: State, p: PeerId, bf: seq<bool>)
    requires Open(s, p) && Bitfield(s, p, bf).Running?
    ensures var t := Bitfield(s, p, bf).s;
            && OnlySender(s, t, p) && (forall j <- t.peers[p].pieces :: Possible(s, j))
            && forall i: nat :: Possible(s, i) ==>
                 (t.peers[p].sentHaveAll || i in t.peers[p].pieces <==> i < |bf| && bf[i])
  {
    var bm := Bits(Trim(s, bf));
    forall i: nat | Possible(s, i) ensures i in bm <==> i < |bf| && bf[i] {
    }
    if s.numPieces.Some? && |bm| == s.numPieces.value {
      forall i: nat | i < s.numPieces.value ensures i in bm {
        FullMeansAll(bm, s.numPieces.value, i);
      }
    }
  }

  lemma TidySender(s: State, t: State, q: PeerId, p: PeerId)
    requires Tidy(s) && Open(s, q) && OnlySender(s, t, q) && forall j <- t.peers[q].pieces :: Possible(s, j)
    ensures TidyConn(t, p)
  {
    assert TidyConn(s, p) && TidyConn(s, q);
  }

  lemma TidyHave(s: State, q: PeerId, j: nat, p: PeerId)
    requires Tidy(s) && Open(s, q) && Have(s, q, j).Running?
    ensures TidyConn(Have(s, q, j).s, p)
  {
    HaveRecorded(s, q, j);
    assert TidyConn(s, q);
    TidySender(s, Have(s, q, j).s, q, p);
  }

  lemma TidyBitfield(s: State, q: PeerId, bf: seq<bool>, p: PeerId)
    requires Tidy(s) && Open(s, q) && Bitfield(s, q, bf).Running?
    ensures TidyConn(Bitfield(s, q, bf).s, p)
  {
    BitfieldRecorded(s, q, bf);
    TidySender(s, Bitfield(s, q, bf).s, q, p);
  }

  lemma TidyInfo(s: State, n: nat, p: PeerId)
    requires Tidy(s)
    ensures TidyConn(SetInfo(s, n), p)
  {
    assert TidyConn(s, p);
  }

  lemma TidyAfter(s: State, e: Event, p: PeerId)
    requires Tidy(s) && Next(s, e).Running?
    ensures TidyConn(Next(s, e).s, p)
  {
    assert TidyConn(s, p);
    match e
    case GotHave(q, j) => if Open(s, q) { TidyHave(s, q, j, p); }
    case GotBitfield(q, bf) => if Open(s, q) { TidyBitfield(s, q, bf, p); }
    case GotInfo(n) => TidyInfo(s, n, p);
    case _ =>
  }

  // A message of p's own.
  lemma OwnMessage(s: State, e: Event, p: PeerId, i: nat)
    requires Tidy(s) && Open(s, p) && Possible(s, i) && Next(s, e).Running?
    requires (e.GotHave? || e.GotBitfield? || e.GotHaveAll? || e.GotHaveNone?) && e.p == p
    ensures Open(Next(s, e).s, p)
    ensures HasPiece(Next(s, e).s, Next(s, e).s.peers[p], i) <==> Said(e, p, i, HasPiece(s, s.peers[p], i))
  {
    assert TidyConn(s, p);
    TidyAfter(s, e, p);
    HasWhen(s, p, i);
    match e
    case GotHave(_, j) =>
      HaveRecorded(s, p, j);
      HasWhen(Have(s, p, j).s, p, i);
      if Possible(s, j) {
        HasWhen(s, p, j);
      }
    case GotBitfield(_, bf) =>
      BitfieldRecorded(s, p, bf);
      HasWhen(Bitfield(s, p, bf).s, p, i);
    case GotHaveAll(_) =>
    case GotHaveNone(_) => HasWhen(HaveNone(s, p).s, p, i);
  }

  // Anything but the metadata that does not come from p.
  lemma OtherEvent(s: State, e: Event, p: PeerId)
    requires Open(s, p) && Next(s, e).Running? && !e.GotInfo? && (e.p == p ==> e.Connect? || e.Delete?)
    ensures var t := Next(s, e).s;
            t.numPieces == s.numPieces && p in t.peers && t.peers[p] == s.peers[p]
  {
    match e
    case GotHave(q, j) => if Open(s, q) { HaveRecorded(s, q, j); }
    case GotBitfield(q, bf) => if Open(s, q) { BitfieldRecorded(s, q, bf); }
    case _ =>
  }

  lemma InfoArrives(s: State, n: nat, p: PeerId, i: nat)
    requires Tidy(s) && Open(s, p) && s.numPieces.None? && i < n
    ensures Open(SetInfo(s, n), p)
    ensures HasPiece(SetInfo(s, n), SetInfo(s, n).peers[p], i) <==> HasPiece(s, s.peers[p], i)
  {
    assert TidyConn(s, p);
    TidyAfter(s, GotInfo(n), p);
    HasWhen(s, p, i);
    HasWhen(SetInfo(s, n), p, i);
  }

  /** Every event, in the message's own terms: afterwards an open connection is recorded as having a
      piece exactly if it says so, by this message or before; nobody else's answer changes. */
  lemma NextSays(s: State, e: Event, p: PeerId, i: nat)
    requires Tidy(s) && Next(s, e).Running? && Open(Next(s, e).s, p) && Possible(Next(s, e).s, i)
    ensures HasPiece(Next(s, e).s, Next(s, e).s.peers[p], i)
       <==> Said(e, p, i, Open(s, p) && HasPiece(s, s.peers[p], i))
  {
    assert TidyConn(s, p);
    if !Open(s, p) {
      OpenedBy(s, e, p);
      TidyAfter(s, e, p);
      HasWhen(Next(s, e).s, p, i);
    } else if e.GotInfo? {
      if s.numPieces.None? {
        InfoArrives(s, e.n, p, i);
      }
    } else if e.p == p && !e.Connect? && !e.Delete? {
      NextListing(s, e, p);
      OwnMessage(s, e, p, i);
    } else {
      OtherEvent(s, e, p);
    }
  }

  // Only connecting opens a connection, and then nothing is recorded of it.
  lemma OpenedBy(s: State, e: Event, p: PeerId)
    requires !Open(s, p) && Next(s, e).Running? && Open(Next(s, e).s, p)
    ensures e == Connect(p) && p !in s.peers && Next(s, e).s.peers[p] == Conn({}, false, false)
  {
    match e
    case GotHave(q, j) => if Open(s, q) { HaveRecorded(s, q, j); }
    case GotBitfield(q, bf) => if Open(s, q) { BitfieldRecorded(s, q, bf); }
    case _ =>
  }

  // Who is known, open and listed after an event.
  lemma NextListing(s: State, e: Event, p: PeerId)
    requires Next(s, e).Running?
    ensures p in Next(s, e).s.peers <==> p in s.peers || e == Connect(p)
    ensures Open(Next(s, e).s, p) <==> (e == Connect(p) && p !in s.peers) || (Open(s, p) && e != Close(p))
    ensures p in Next(s, e).s.conns
       <==> (e == Connect(p) && p !in s.peers) || (p in s.conns && !(e == Delete(p) && p in s.peers && !Open(s, p)))
    ensures Next(s, e).s.numPieces == if s.numPieces.None? && e.GotInfo? then Some(e.n) else s.numPieces
  {
    match e
    case GotHave(q, j) => if Open(s, q) { HaveRecorded(s, q, j); }
    case GotBitfield(q, bf) => if Open(s, q) { BitfieldRecorded(s, q, bf); }
    case _ =>
  }

  lemma {:induction false} RunLast(s: State, es: seq<Event>)
    requires es != [] && Run(s, es).Running?
    ensures var o := Run(s, es[..|es| - 1]);
            o.Running? && Next(o.s, es[|es| - 1]) == Run(s, es)
    decreases |es|
  {
    var o := Next(s, es[0]);
    if |es| > 1 {
      RunLast(o.s, es[1..]);
      assert es[1..][..|es| - 2] == es[..|es| - 1][1..];
      assert es[..|es| - 1][0] == es[0];
    } else {
      assert es[1..] == [] && es[..0] == [];
    }
  }

  /** The history alone tells who is known, open and listed and how many pieces there are. */
  lemma {:induction false} RunListing(es: seq<Event>, p: PeerId)
    requires Run(Start, es).Running?
    ensures var s := Run(Start, es).s;
            && (p in s.peers <==> Connect(p) in es) && (Open(s, p) <==> Talking(es, p))
            && (p in s.conns <==> Listed(es, p)) && s.numPieces == InfoOf(es)
            && (Talking(es, p) ==> Connect(p) in es) && (Listed(es, p) ==> Connect(p) in es)
    decreases |es|
  {
    if es != [] {
      RunLast(Start, es);
      var before, e := es[..|es| - 1], es[|es| - 1];
      assert es == before + [e];
      RunListing(before, p);
      NextListing(Run(Start, before).s, e, p);
    }
  }

  lemma {:induction false} RunTidy(es: seq<Event>)
    requires Run(Start, es).Running?
    ensures Tidy(Run(Start, es).s)
    decreases |es|
  {
    if es != [] {
      RunLast(Start, es);
      var before, e := es[..|es| - 1], es[|es| - 1];
      RunTidy(before);
      forall p ensures TidyConn(Run(Start, es).s, p) {
        TidyAfter(Run(Start, before).s, e, p);
      }
    }
  }

  /** In every run, whether or not its events keep the counters right: a piece is recorded for an open
      connection exactly if what the peer sent says it has it. */
  lemma {:induction false} RecordedIsSaid(es: seq<Event>, p: PeerId, i: nat)
    requires Run(Start, es).Running? && Talking(es, p) && (InfoOf(es).Some? ==> i < InfoOf(es).value)
    ensures var s := Run(Start, es).s;
            Open(s, p) && (HasPiece(s, s.peers[p], i) <==> Says(es, p, i))
    decreases |es|
  {
    RunListing(es, p);
    RunLast(Start, es);
    var before, e := es[..|es| - 1], es[|es| - 1];
    RunListing(before, p);
    RunTidy(before);
    NextSays(Run(Start, before).s, e, p, i);
    if Talking(before, p) {
      RecordedIsSaid(before, p, i);
    } else {
      SilentBefore(before, p, i);
    }
  }

  lemma {:induction false} SilentBefore(es: seq<Event>, p: PeerId, i: nat)
    requires Connect(p) !in es
    ensures !Talking(es, p) && !Says(es, p, i)
    decreases |es|
  {
    if es != [] {
      SilentBefore(es[..|es| - 1], p, i);
    }
  }

  lemma ClaimersSay(es: seq<Event>, s: State, i: nat)
    requires Run(Start, es) == Running(s) && Exact(s) && s.numPieces.Some? && i < s.numPieces.value
    ensures Claimers(s.peers, i) + s.withAll == Sayers(es, i) && Claimers(s.peers, i) !! s.withAll
  {
    RunTidy(es);
    forall p ensures p in Claimers(s.peers, i) + s.withAll <==> p in Sayers(es, i) {
      assert ConnRight(s, p);
      RunListing(es, p);
      if Open(s, p) {
        RecordedIsSaid(es, p, i);
        assert TidyConn(s, p);
        HasWhen(s, p, i);
      }
      assert p in Sayers(es, i) <==> Connect(p) in es && Talking(es, p) && Says(es, p, i);
    }
    forall p | p in Claimers(s.peers, i) ensures p !in s.withAll {
      assert ConnRight(s, p);
    }
  }

  /** In every run whose events keep the counters right, a piece's availability, the shared part and
      its own counter together, is the number of open connections that say they have it. */
  lemma AvailabilityIsSaid(es: seq<Event>, i: nat)
    requires AllKept(Start, es) && InfoOf(es).Some? && i < InfoOf(es).value
    ensures var o := Run(Start, es);
            o.Running? && i in o.s.relative && |o.s.withAll| + o.s.relative[i] == |Sayers(es, i)|
  {
    StartExact();
    RunExact(Start, es);
    var s := Run(Start, es).s;
    RunListing(es, 0);
    assert CounterRight(s, i);
    ClaimersSay(es, s, i);
  }

  function At7(counter: int, withAll: set<PeerId>, pieces: set<nat>, all: bool, closed: bool): State {
    State(Some(1), {7}, map[7 := Conn(pieces, all, closed)], withAll, map[0 := counter])
  }

  lemma BadStart()
    ensures Next(Start, GotInfo(1)) == Running(State(Some(1), {}, map[], {}, map[0 := 0]))
    ensures Next(State(Some(1), {}, map[], {}, map[0 := 0]), Connect(7)) == Running(At7(0, {}, {}, false, false))
  {
    assert Range(1) == {0};
    assert Selected(Start.(numPieces := Some(1)), 0) == {};
  }

  lemma BadHaveAll()
    ensures Next(At7(0, {}, {}, false, false), GotHaveAll(7)) == Running(At7(0, {7}, {}, true, false))
    ensures Next(At7(0, {7}, {}, true, false), GotHaveNone(7)) == Running(At7(0, {7}, {}, false, false))
  {
    ShiftNothing(At7(0, {}, {}, false, false));
  }

  lemma BadHave()
    ensures Next(At7(0, {7}, {}, false, false), GotHave(7, 0)) == Running(At7(1, {7}, {0}, false, false))
    ensures Next(At7(1, {7}, {0}, false, false), Close(7)) == Running(At7(1, {}, {0}, false, true))
  {
    var s := At7(0, {7}, {}, false, false);
    assert {} + {0} == {0};
    assert (map i | i in s.relative :: s.relative[i] - Bit(i in {}) + Bit(i in {0})) == map[0 := 1];
  }

  /** HAVE ALL, HAVE NONE, HAVE and close leave a counter at one with no connection open, which the
      check on closing a torrent turns into a panic. */
  lemma HaveNoneAfterHaveAll() returns (es: seq<Event>, s: State)
    ensures es == [GotInfo(1), Connect(7), GotHaveAll(7), GotHaveNone(7), GotHave(7, 0), Close(7)]
    ensures Run(Start, es) == Running(s)
    ensures (forall p <- s.peers :: s.peers[p].closed) && 0 in s.relative && s.relative[0] == 1
  {
    es := [GotInfo(1), Connect(7), GotHaveAll(7), GotHaveNone(7), GotHave(7, 0), Close(7)];
    s := At7(1, {}, {0}, false, true);
    BadOpening(es);
    BadEnding(es);
    assert es[0..] == es && es[6..] == [];
  }

  lemma BadOpening(es: seq<Event>)
    requires |es| == 6 && es[0] == GotInfo(1) && es[1] == Connect(7) && es[2] == GotHaveAll(7)
    ensures Run(Start, es[0..]) == Run(At7(0, {7}, {}, true, false), es[3..])
  {
    BadStart();
    BadHaveAll();
    var s1, s2 := State(Some(1), {}, map[], {}, map[0 := 0]), At7(0, {}, {}, false, false);
    RunStep(Start, es, 0);
    RunStep(s1, es, 1);
    RunStep(s2, es, 2);
  }

  lemma BadEnding(es: seq<Event>)
    requires |es| == 6 && es[3] == GotHaveNone(7) && es[4] == GotHave(7, 0) && es[5] == Close(7)
    ensures Run(At7(0, {7}, {}, true, false), es[3..]) == Run(At7(1, {}, {0}, false, true), es[6..])
  {
    BadHaveAll();
    BadHave();
    RunStep(At7(0, {7}, {}, true, false), es, 3);
    RunStep(At7(0, {7}, {}, false, false), es, 4);
    RunStep(At7(1, {7}, {0}, false, false), es, 5);
  }

  lemma RunStep(s: State, es: seq<Event>, k: nat)
    requires k < |es| && Next(s, es[k]).Running?
    ensures Run(s, es[k..]) == Run(Next(s, es[k]).s, es[k + 1..])
  {
    assert es[k..][1..] == es[k + 1..];
  }

  /** A HAVE for piece 1 that arrives before the info of a one-piece torrent gets the peer counted
      for piece 0, because it then claims as many pieces as there are; closing does not undo it. */
  lemma EarlyHaveMiscounted() returns (es: seq<Event>, s: State)
    ensures es == [Connect(7), GotHave(7, 1), GotInfo(1), Close(7)]
    ensures Run(Start, es) == Running(s)
    ensures (forall p <- s.peers :: s.peers[p].closed) && 0 in s.relative && s.relative[0] == 1
  {
    es := [Connect(7), GotHave(7, 1), GotInfo(1), Close(7)];
    var s1 := State(None, {7}, map[7 := Conn({}, false, false)], {}, map[]);
    var s2 := State(None, {7}, map[7 := Conn({1}, false, false)], {}, map[]);
    var s3 := At7(1, {}, {}, false, false);
    s := At7(1, {}, {}, false, true);
    EarlyHave(s1, s2);
    EarlyInfo(s2);
    EarlyClose();
    RunFour(es, s1, s2, s3, s);
  }

  lemma EarlyHave(s1: State, s2: State)
    requires s1 == State(None, {7}, map[7 := Conn({}, false, false)], {}, map[])
    requires s2 == State(None, {7}, map[7 := Conn({1}, false, false)], {}, map[])
    ensures Next(Start, Connect(7)) == Running(s1) && Next(s1, GotHave(7, 1)) == Running(s2)
  {
    assert {} + {1} == {1};
  }

  lemma EarlyClose()
    ensures Next(At7(1, {}, {}, false, false), Close(7)) == Running(At7(1, {}, {}, false, true))
  {
    ShiftNothing(At7(1, {}, {}, false, false));
  }

  lemma RunFour(es: seq<Event>, s1: State, s2: State, s3: State, s4: State)
    requires |es| == 4
    requires Next(Start, es[0]) == Running(s1) && Next(s1, es[1]) == Running(s2)
    requires Next(s2, es[2]) == Running(s3) && Next(s3, es[3]) == Running(s4)
    ensures Run(Start, es) == Running(s4)
  {
    RunStep(s3, es, 3); RunStep(s2, es, 2); RunStep(s1, es, 1); RunStep(Start, es, 0);
    assert es[0..] == es && es[4..] == [];
  }

  lemma EarlyInfo(s: State)
    requires s == State(None, {7}, map[7 := Conn({1}, false, false)], {}, map[])
    ensures Next(s, GotInfo(1)) == Running(At7(1, {}, {}, false, false))
  {
    assert Range(1) == {0};
    assert Selected(s.(numPieces := Some(1)), 0) == {7};
    assert {1} * Range(1) == {};
    assert SetInfo(s, 1).peers == map[7 := Conn({}, false, false)];
  }

  // ---- The torrent object ------------------------------------------------------------------------

  function Shifted(counters: map<nat, int>, lost: set<nat>, gained: set<nat>): map<nat, int> {
    map i | i in counters :: counters[i] - Bit(i in lost) + Bit(i in gained)
  }

  lemma SameSelection(s: State, t: State, i: nat)
    requires s.numPieces == t.numPieces && s.conns == t.conns && s.peers == t.peers && s.withAll == t.withAll
    ensures Selected(s, i) == Selected(t, i)
  {
  }

  lemma CountedStep(s: State, i: nat)
    ensures Counted(s, i + 1) == Counted(s, i)[i := |Selected(s, i)|]
  {
  }

  /** The fields as the connection and torrent methods mutate them, one counter at a time. */
  class Torrent {
    var numPieces: Option<nat>
    var conns: set<PeerId>
    var peers: map<PeerId, Conn>
    var withAll: set<PeerId>
    var relative: map<nat, int>

    ghost function View(): State
      reads this
    {
      State(numPieces, conns, peers, withAll, relative)
    }

    constructor ()
      ensures View() == Start
    {
      numPieces, conns, peers, withAll, relative := None, {}, map[], {}, map[];
    }

    method DecAvailability(lost: set<nat>)
      requires lost <= relative.Keys && forall i <- lost :: relative[i] > 0
      modifies this`relative
      ensures relative == Shifted(old(relative), lost, {})
    {
      ghost var before, done: set<nat> := relative, {};
      var todo := lost;
      while todo != {}
        invariant done + todo == lost && done !! todo
        invariant relative == Shifted(before, done, {})
      {
        var i :| i in todo;
        assert relative[i] > 0;
        relative := relative[i := relative[i] - 1];
        todo, done := todo - {i}, done + {i};
      }
      assert done == lost;
    }

    method IncAvailability(gained: set<nat>)
      requires gained <= relative.Keys
      modifies this`relative
      ensures relative == Shifted(old(relative), {}, gained)
    {
      ghost var before, done: set<nat> := relative, {};
      var todo := gained;
      while todo != {}
        invariant done + todo == gained && done !! todo
        invariant relative == Shifted(before, {}, done)
      {
        var i :| i in todo;
        relative := relative[i := relative[i] + 1];
        todo, done := todo - {i}, done + {i};
      }
      assert done == gained;
    }

    method ShiftAvailability(lost: set<nat>, gained: set<nat>)
      requires Shift(View(), lost, gained).Running?
      modifies this`relative
      ensures Running(View()) == Shift(old(View()), lost, gained)
    {
      if numPieces.None? {
        return;
      }
      DecAvailability(lost);
      IncAvailability(gained);
    }

    method PeerSentHave(p: PeerId, i: nat)
      requires Exact(View()) && Open(View(), p)
      modifies this
      ensures Exact(View()) && Running(View()) == Have(old(View()), p, i)
    {
      HaveExact(View(), p, i);
      var c := peers[p];
      if numPieces.Some? && i >= numPieces.value {
        return;
      }
      if c.sentHaveAll || (numPieces.Some? && |c.pieces| == numPieces.value) || i in c.pieces {
        return;
      }
      ShiftAvailability({}, {i});
      peers := peers[p := c.(pieces := c.pieces + {i})];
    }

    method OnPeerHasAllPieces(p: PeerId)
      requires Exact(View()) && Open(View(), p)
      modifies this
      ensures Exact(View()) && Running(View()) == HaveAll(old(View()), p)
    {
      HaveAllExact(View(), p);
      var c := peers[p];
      ShiftAvailability(c.pieces, {});
      withAll := withAll + {p};
      peers := peers[p := c.(sentHaveAll := true, pieces := {})];
    }

    method BoolSliceToBitmap(bf: seq<bool>) returns (bm: set<nat>)
      ensures bm == Bits(bf)
    {
      bm := {};
      for i := 0 to |bf|
        invariant bm == set j: nat | j < i && bf[j]
      {
        if bf[i] {
          bm := bm + {i};
        }
      }
    }

    method PeerSentBitfield(p: PeerId, bf: seq<bool>)
      requires Exact(View()) && Open(View(), p)
      modifies this
      ensures Exact(View()) && Running(View()) == Bitfield(old(View()), p, bf)
    {
      BitfieldExact(View(), p, bf);
      assert ConnRight(View(), p);
      var kept := if numPieces.Some? && |bf| > numPieces.value then bf[..numPieces.value] else bf;
      var bm := BoolSliceToBitmap(kept);
      if numPieces.Some? && |bm| == numPieces.value {
        OnPeerHasAllPieces(p);
        return;
      }
      var c := peers[p];
      if c.sentHaveAll {
        assert p in withAll && c.pieces == {};
        withAll := withAll - {p};
      }
      ShiftAvailability(c.pieces - bm, bm - c.pieces);
      peers := peers[p := c.(pieces := bm, sentHaveAll := false)];
    }

    method DecPeerPieceAvailability(p: PeerId)
      requires p in peers && Release(View(), p).Running?
      modifies this
      ensures Running(View()) == Release(old(View()), p)
    {
      if p in withAll {
        withAll := withAll - {p};
        return;
      }
      ShiftAvailability(peers[p].pieces, {});
    }

    method PeerSentHaveNone(p: PeerId)
      requires Exact(View()) && Open(View(), p)
      modifies this
      ensures Running(View()) == HaveNone(old(View()), p)
      ensures Exact(View()) <==> !old(peers)[p].sentHaveAll
    {
      NextExact(View(), GotHaveNone(p));
      var c := peers[p];
      if !c.sentHaveAll {
        DecPeerPieceAvailability(p);
      }
      peers := peers[p := c.(pieces := {}, sentHaveAll := false)];
    }

    method ClosePeer(p: PeerId)
      requires Exact(View()) && p in peers
      modifies this
      ensures Exact(View()) && Next(old(View()), Close(p)) == Running(View())
    {
      ClosePeerExact(View(), p);
      var c := peers[p];
      if c.closed {
        return;
      }
      DecPeerPieceAvailability(p);
      peers := peers[p := c.(closed := true)];
    }

    method SelectiveAvailability(i: nat) returns (count: nat)
      requires conns <= peers.Keys
      ensures count == |Selected(View(), i)|
    {
      count := 0;
      var todo := conns;
      ghost var found: set<PeerId> := {};
      while todo != {}
        invariant todo <= conns && count == |found|
        invariant found == set p | p in conns - todo && p in peers && p !in withAll && HasPiece(View(), peers[p], i)
      {
        var p :| p in todo;
        todo := todo - {p};
        if p !in withAll && (peers[p].sentHaveAll || (numPieces.Some? && |peers[p].pieces| == numPieces.value)
                             || i in peers[p].pieces) {
          found := found + {p};
          count := count + 1;
        }
      }
      assert found == Selected(View(), i);
    }

    method OnSetInfo(n: nat)
      requires Exact(View()) && numPieces.None?
      modifies this
      ensures View() == SetInfo(old(View()), n)
      ensures Exact(View()) <==> InfoReady(old(View()), n)
    {
      ghost var before := View();
      SetInfoExact(before, n);
      numPieces := Some(n);
      relative := map[];
      for i := 0 to n
        invariant numPieces == Some(n) && conns == before.conns && peers == before.peers && withAll == before.withAll
        invariant relative == Counted(before.(numPieces := Some(n)), i)
      {
        SameSelection(View(), before.(numPieces := Some(n)), i);
        var count := SelectiveAvailability(i);
        relative := relative[i := count];
        CountedStep(before.(numPieces := Some(n)), i);
      }
      TrimPieces(n);
    }

    method TrimPieces(n: nat)
      modifies this`peers
      ensures peers == TrimAll(old(peers), conns, n)
    {
      ghost var before := peers;
      var todo := conns;
      assert conns - conns == {};
      while todo != {}
        invariant todo <= conns
        invariant peers == TrimAll(before, conns - todo, n)
      {
        var p :| p in todo;
        todo := todo - {p};
        if p in peers {
          peers := peers[p := Trimmed(peers[p], n)];
        }
      }
    }
  }
}
