/**
 * Outstanding download requests of one torrent, over any number of connections.
 *
 * Three structures are kept in step by hand: each connection's set of outstanding requests, the set
 * of cancelled requests still awaiting an acknowledgement, and the torrent-wide map naming the
 * connection that owns a chunk. Every operation below is a function that is Panicked exactly where
 * the original panics; `Consistent` is what makes those branches dead.
 */
module Requests {

  type PeerId = nat
  type RequestIndex = nat

  datatype Conn = Conn(
    requests: set<RequestIndex>,
    cancelled: set<RequestIndex>,
    // How many deliveries of a chunk are still plausible; absent means none.
    expected: map<RequestIndex, nat>,
    fast: bool,
    rejectsCancels: bool,
    peerChoking: bool,
    // Chunks of the pieces the peer serves even while choking.
    allowedFast: set<RequestIndex>,
    closed: bool,
    rate: real,
    lastUseful: int)

  datatype Claim = Claim(peer: PeerId, when: int)

  // `peers` holds every connection some goroutine still references; `conns` those the torrent lists.
  datatype Swarm = Swarm(conns: set<PeerId>, peers: map<PeerId, Conn>, owner: map<RequestIndex, Claim>)

  datatype Outcome = Running(s: Swarm) | Panicked

  function Count(c: Conn, r: RequestIndex): nat {
    if r in c.expected then c.expected[r] else 0
  }

  // ---- The consistency the operations rely on and keep -------------------------------------------

  ghost predicate ConnAt(c: Conn, r: RequestIndex) {
    && !(r in c.requests && r in c.cancelled)
    && (r in c.requests || r in c.cancelled ==> Count(c, r) >= 1)
    && (r in c.expected ==> c.expected[r] >= 1)
  }

  ghost predicate Holds(s: Swarm, p: PeerId, r: RequestIndex) {
    p in s.peers && r in s.peers[p].requests
  }

  ghost predicate Names(s: Swarm, p: PeerId, r: RequestIndex) {
    r in s.owner && s.owner[r].peer == p
  }

  /** What must hold for one connection and one chunk: the chunk is outstanding there exactly when
      the owner map names the connection, only listed connections have anything outstanding, and every
      open connection is listed. */
  ghost predicate At(s: Swarm, p: PeerId, r: RequestIndex) {
    && (Holds(s, p, r) <==> Names(s, p, r))
    && (Holds(s, p, r) ==> p in s.conns)
    && (p in s.peers ==> ConnAt(s.peers[p], r))
    && (p in s.peers && !s.peers[p].closed ==> p in s.conns)
  }

  ghost predicate Consistent(s: Swarm) {
    && s.conns <= s.peers.Keys
    && forall p, r :: At(s, p, r)
  }

  // ---- Operations --------------------------------------------------------------------------------

  function WithConn(s: Swarm, p: PeerId, c: Conn): Swarm {
    s.(peers := s.peers[p := c])
  }

  function DecExpected(c: Conn, r: RequestIndex): (c': Conn)
    requires Count(c, r) >= 1
    ensures c' == c.(expected := c'.expected)
    ensures Count(c', r) == Count(c, r) - 1
    ensures forall q :: q != r ==> Count(c', q) == Count(c, q)
  {
    if c.expected[r] == 1 then c.(expected := c.expected - {r})
    else c.(expected := c.expected[r := c.expected[r] - 1])
  }

  function DeleteRequest(s: Swarm, p: PeerId, r: RequestIndex): Outcome
    requires p in s.peers
  {
    var c := s.peers[p];
    if r !in c.requests then Running(s)
    else if r !in s.owner || s.owner[r].peer != p then Panicked
    else Running(WithConn(s.(owner := s.owner - {r}), p, c.(requests := c.requests - {r})))
  }

  function HandleCancel(s: Swarm, p: PeerId, r: RequestIndex): Outcome
    requires p in s.peers
  {
    var c := s.peers[p];
    if !c.rejectsCancels then Running(s)
    else if r in c.cancelled then Panicked
    else Running(WithConn(s, p, c.(cancelled := c.cancelled + {r})))
  }

  function CancelAt(s: Swarm, p: PeerId, r: RequestIndex): Outcome
    requires p in s.peers
  {
    if r !in s.peers[p].requests then Panicked
    else
      var o := DeleteRequest(s, p, r);
      if o.Panicked? then Panicked else HandleCancel(o.s, p, r)
  }

  function CancelRequest(s: Swarm, r: RequestIndex): Outcome {
    if r !in s.owner then Running(s)
    else if s.owner[r].peer !in s.peers then Panicked
    else
      var o := CancelAt(s, s.owner[r].peer, r);
      if o.Panicked? || r in o.s.owner then Panicked else o
  }

  // `ready`: the torrent's chunks of pieces that the peer has and that are not hashed, marked or queued.
  function Request(s: Swarm, p: PeerId, r: RequestIndex, ready: set<RequestIndex>, limit: int, now: int): Outcome
    requires p in s.peers
  {
    var c := s.peers[p];
    if r in c.cancelled || p !in s.conns || c.closed || r !in ready then Panicked
    else if c.peerChoking && r !in c.allowedFast && r !in c.requests then Panicked
    else if r in c.requests then Running(s)
    else if |c.requests| >= limit then Panicked
    else Running(WithConn(s.(owner := s.owner[r := Claim(p, now)]), p,
                          c.(requests := c.requests + {r}, expected := c.expected[r := Count(c, r) + 1])))
  }

  // Takes over a chunk for p: another holder's request is cancelled first.
  function Obtain(s: Swarm, p: PeerId, r: RequestIndex, ready: set<RequestIndex>, limit: int, now: int): Outcome
    requires p in s.peers
  {
    if r in s.owner && s.owner[r].peer != p then
      var o := CancelRequest(s, r);
      if o.Panicked? || p !in o.s.peers then Panicked else Request(o.s, p, r, ready, limit, now)
    else Request(s, p, r, ready, limit, now)
  }

  function RemoteRejected(s: Swarm, p: PeerId, r: RequestIndex): Outcome
    requires p in s.peers
  {
    var c := s.peers[p];
    if r in c.requests then
      var o := DeleteRequest(s, p, r);
      if o.Panicked? || p !in o.s.peers || Count(o.s.peers[p], r) == 0 then Panicked
      else Running(WithConn(o.s, p, DecExpected(o.s.peers[p], r)))
    else if r in c.cancelled then
      if Count(c, r) == 0 then Panicked
      else Running(WithConn(s, p, DecExpected(c.(cancelled := c.cancelled - {r}), r)))
    else Running(s)
  }

  function CheckReceived(s: Swarm, p: PeerId, r: RequestIndex): Outcome
    requires p in s.peers
  {
    if Count(s.peers[p], r) == 0 then Running(s)
    else
      var c := DecExpected(s.peers[p], r);
      var s1 := WithConn(s, p, c);
      if r in c.requests then DeleteRequest(s1, p, r)
      else Running(WithConn(s1, p, c.(cancelled := c.cancelled - {r})))
  }

  // `wanted`: the chunk is neither held already nor part of a complete piece.
  function ReceiveChunk(s: Swarm, p: PeerId, r: RequestIndex, wanted: bool): Outcome
    requires p in s.peers
  {
    var o := CheckReceived(s, p, r);
    if o.Panicked? || Count(s.peers[p], r) == 0 || !wanted || r !in o.s.owner then o
    else if o.s.owner[r].peer !in o.s.peers || o.s.owner[r].peer == p then Panicked
    else CancelAt(o.s, o.s.owner[r].peer, r)
  }

  function ForgetAll(c: Conn): Conn {
    c.(requests := {})
  }

  function DeleteAllRequests(s: Swarm, p: PeerId): Swarm
    requires p in s.peers
  {
    WithConn(s.(owner := s.owner - s.peers[p].requests), p, ForgetAll(s.peers[p]))
  }

  function CancelIn(c: Conn, chunks: set<RequestIndex>): Conn {
    c.(requests := c.requests - chunks,
       cancelled := if c.rejectsCancels then c.cancelled + c.requests * chunks else c.cancelled)
  }

  // Cancels whatever is outstanding among the chunks, at whichever connection holds it.
  function CancelSet(s: Swarm, chunks: set<RequestIndex>): Swarm {
    s.(peers := map p | p in s.peers :: CancelIn(s.peers[p], chunks), owner := s.owner - chunks)
  }

  // ---- Single operations keep consistency and never panic ----------------------------------------

  lemma DeleteRequestSafe(s: Swarm, p: PeerId, r: RequestIndex)
    requires Consistent(s) && p in s.peers
    ensures DeleteRequest(s, p, r).Running? && Consistent(DeleteRequest(s, p, r).s)
    ensures r !in DeleteRequest(s, p, r).s.peers[p].requests
  {
    assert At(s, p, r);
    var t := DeleteRequest(s, p, r).s;
    forall q, x ensures At(t, q, x) {
      assert At(s, q, x) && At(s, q, r);
    }
  }

  lemma CancelSetSafe(s: Swarm, chunks: set<RequestIndex>)
    requires Consistent(s)
    ensures Consistent(CancelSet(s, chunks))
  {
    forall q, x ensures At(CancelSet(s, chunks), q, x) {
      assert At(s, q, x);
    }
  }

  lemma CancelInNothing(c: Conn, r: RequestIndex)
    requires r !in c.requests
    ensures CancelIn(c, {r}) == c
  {
    assert c.requests - {r} == c.requests;
    assert c.requests * {r} == {};
    assert c.cancelled + {} == c.cancelled;
  }

  lemma CancelSetAtOwner(s: Swarm, p: PeerId, r: RequestIndex)
    requires Consistent(s) && Holds(s, p, r)
    ensures CancelAt(s, p, r) == Running(CancelSet(s, {r}))
  {
    assert At(s, p, r);
    assert s.peers[p].requests * {r} == {r};
    forall q | q in s.peers && q != p ensures CancelSet(s, {r}).peers[q] == s.peers[q] {
      assert At(s, q, r);
      CancelInNothing(s.peers[q], r);
    }
    assert CancelAt(s, p, r).s.peers == CancelSet(s, {r}).peers;
  }

  /** Cancelling one chunk through the owner map never panics and does exactly what the whole-set
      cancellation says. */
  lemma CancelRequestSafe(s: Swarm, r: RequestIndex)
    requires Consistent(s)
    ensures CancelRequest(s, r) == Running(CancelSet(s, {r}))
    ensures Consistent(CancelSet(s, {r}))
  {
    CancelSetSafe(s, {r});
    if r in s.owner {
      assert At(s, s.owner[r].peer, r);
      CancelSetAtOwner(s, s.owner[r].peer, r);
    } else {
      forall q | q in s.peers ensures CancelSet(s, {r}).peers[q] == s.peers[q] {
        assert At(s, q, r);
        CancelInNothing(s.peers[q], r);
      }
      assert CancelSet(s, {r}).peers == s.peers;
    }
  }

  lemma CancelSetStep(s: Swarm, done: set<RequestIndex>, r: RequestIndex)
    ensures CancelSet(CancelSet(s, done), {r}) == CancelSet(s, done + {r})
  {
    var t := CancelSet(CancelSet(s, done), {r});
    var u := CancelSet(s, done + {r});
    forall p | p in s.peers ensures t.peers[p] == u.peers[p] {
      var c := s.peers[p];
      assert c.requests - done - {r} == c.requests - (done + {r});
      assert c.cancelled + c.requests * done + (c.requests - done) * {r}
          == c.cancelled + c.requests * (done + {r});
    }
    assert t.peers == u.peers;
    assert t.owner == u.owner;
  }

  // What planning guarantees about a chunk before it is requested.
  ghost predicate MayRequest(s: Swarm, p: PeerId, r: RequestIndex, ready: set<RequestIndex>) {
    && p in s.peers && !s.peers[p].closed
    && r !in s.peers[p].cancelled && r in ready
    && (s.peers[p].peerChoking ==> r in s.peers[p].allowedFast || r in s.peers[p].requests)
  }

  lemma RequestSafe(s: Swarm, p: PeerId, r: RequestIndex, ready: set<RequestIndex>, limit: int, now: int)
    requires Consistent(s) && MayRequest(s, p, r, ready) && |s.peers[p].requests| < limit
    requires r in s.owner ==> s.owner[r].peer == p
    ensures Request(s, p, r, ready, limit, now).Running?
    ensures Consistent(Request(s, p, r, ready, limit, now).s)
  {
    assert At(s, p, r);
    var t := Request(s, p, r, ready, limit, now).s;
    forall q, x ensures At(t, q, x) {
      assert At(s, q, x);
    }
  }

  lemma ObtainSafe(s: Swarm, p: PeerId, r: RequestIndex, ready: set<RequestIndex>, limit: int, now: int)
    requires Consistent(s) && MayRequest(s, p, r, ready) && |s.peers[p].requests| < limit
    ensures Obtain(s, p, r, ready, limit, now).Running?
    ensures Consistent(Obtain(s, p, r, ready, limit, now).s)
  {
    if r in s.owner && s.owner[r].peer != p {
      CancelRequestSafe(s, r);
      assert At(s, p, r);
      CancelInNothing(s.peers[p], r);
      RequestSafe(CancelSet(s, {r}), p, r, ready, limit, now);
    } else {
      RequestSafe(s, p, r, ready, limit, now);
    }
  }

  lemma RemoteRejectedSafe(s: Swarm, p: PeerId, r: RequestIndex)
    requires Consistent(s) && p in s.peers
    ensures RemoteRejected(s, p, r).Running? && Consistent(RemoteRejected(s, p, r).s)
  {
    DeleteRequestSafe(s, p, r);
    assert At(s, p, r);
    var t := RemoteRejected(s, p, r).s;
    forall q, x ensures At(t, q, x) {
      assert At(s, q, x) && At(DeleteRequest(s, p, r).s, q, x);
    }
  }

  lemma CheckReceivedSafe(s: Swarm, p: PeerId, r: RequestIndex)
    requires Consistent(s) && p in s.peers
    ensures CheckReceived(s, p, r).Running? && Consistent(CheckReceived(s, p, r).s)
    ensures Count(s.peers[p], r) > 0 ==> !Holds(CheckReceived(s, p, r).s, p, r)
  {
    assert At(s, p, r);
    var t := CheckReceived(s, p, r).s;
    forall q, x ensures At(t, q, x) {
      assert At(s, q, x) && At(s, q, r);
    }
  }

  lemma ReceiveChunkSafe(s: Swarm, p: PeerId, r: RequestIndex, wanted: bool)
    requires Consistent(s) && p in s.peers
    ensures ReceiveChunk(s, p, r, wanted).Running? && Consistent(ReceiveChunk(s, p, r, wanted).s)
    // A wanted chunk that was plausible is outstanding nowhere afterwards.
    ensures wanted && Count(s.peers[p], r) > 0 ==> r !in ReceiveChunk(s, p, r, wanted).s.owner
  {
    CheckReceivedSafe(s, p, r);
    var t := CheckReceived(s, p, r).s;
    if Count(s.peers[p], r) > 0 && wanted && r in t.owner {
      assert At(t, t.owner[r].peer, r);
      CancelSetAtOwner(t, t.owner[r].peer, r);
      CancelSetSafe(t, {r});
    }
  }

  lemma DeleteAllRequestsSafe(s: Swarm, p: PeerId, conns: set<PeerId>)
    requires Consistent(s) && p in s.peers && s.conns - {p} <= conns <= s.conns
    requires s.peers[p].closed || conns == s.conns
    ensures Consistent(DeleteAllRequests(s.(conns := conns), p))
  {
    forall q, x ensures At(DeleteAllRequests(s.(conns := conns), p), q, x) {
      assert At(s, q, x) && At(s, p, x);
    }
  }

  // ---- Whole runs --------------------------------------------------------------------------------

  datatype Event =
    | Connect(p: PeerId, fast: bool, rejectsCancels: bool)
    | Take(p: PeerId, r: RequestIndex, ready: set<RequestIndex>, limit: int, now: int)
    | Chunk(p: PeerId, r: RequestIndex, wanted: bool)
    | Reject(p: PeerId, r: RequestIndex)
    | Choke(p: PeerId)
    | Unchoke(p: PeerId)
    | AllowFast(p: PeerId, chunks: set<RequestIndex>)
    | CancelChunks(chunks: set<RequestIndex>)
    | Measure(p: PeerId, rate: real, lastUseful: int)
    | Close(p: PeerId)
    | Drop(p: PeerId)
    | Collect(p: PeerId)

  const NewConn: Conn := Conn({}, {}, map[], false, false, true, {}, false, 0.0, 0)

  /** One critical section. An event whose own guard in the code fails changes nothing. */
  function Next(s: Swarm, e: Event): Outcome {
    match e
    case Connect(p, fast, rejects) =>
      if p in s.peers then Running(s)
      else Running(s.(conns := s.conns + {p},
                      peers := s.peers[p := NewConn.(fast := fast, rejectsCancels := fast && rejects)]))
    case Take(p, r, ready, limit, now) =>
      if p in s.peers && !s.peers[p].closed && r !in s.peers[p].cancelled && r in ready
         && (s.peers[p].peerChoking ==> r in s.peers[p].allowedFast || r in s.peers[p].requests)
         && |s.peers[p].requests| + |s.peers[p].cancelled| < limit
      then Obtain(s, p, r, ready, limit, now) else Running(s)
    case Chunk(p, r, wanted) => if p in s.peers then ReceiveChunk(s, p, r, wanted) else Running(s)
    case Reject(p, r) => if p in s.peers && s.peers[p].fast then RemoteRejected(s, p, r) else Running(s)
    case Choke(p) =>
      if p !in s.peers || s.peers[p].peerChoking then Running(s)
      else
        var t := if s.peers[p].fast then s else DeleteAllRequests(s, p);
        Running(WithConn(t, p, t.peers[p].(peerChoking := true)))
    case Unchoke(p) => if p in s.peers then Running(WithConn(s, p, s.peers[p].(peerChoking := false))) else Running(s)
    case AllowFast(p, chunks) =>
      if p in s.peers then Running(WithConn(s, p, s.peers[p].(allowedFast := chunks))) else Running(s)
    case CancelChunks(chunks) => Running(CancelSet(s, chunks))
    case Measure(p, rate, last) =>
      if p in s.peers then Running(WithConn(s, p, s.peers[p].(rate := rate, lastUseful := last))) else Running(s)
    case Close(p) => if p in s.peers then Running(WithConn(s, p, s.peers[p].(closed := true))) else Running(s)
    case Drop(p) =>
      if p !in s.peers || !s.peers[p].closed then Running(s)
      else
        var t := DeleteAllRequests(s.(conns := s.conns - {p}), p);
        // The torrent without connections must own nothing.
        if t.conns == {} && |t.owner| != 0 then Panicked else Running(t)
    case Collect(p) =>
      if p in s.conns then Running(s) else Running(s.(peers := s.peers - {p}))
  }

  lemma OwnerListed(s: Swarm, r: RequestIndex)
    requires Consistent(s)
    ensures r in s.owner ==> s.owner[r].peer in s.conns
  {
    if r in s.owner {
      assert At(s, s.owner[r].peer, r);
    }
  }

  lemma NothingOwned(s: Swarm)
    requires Consistent(s) && s.conns == {}
    ensures s.owner == map[]
  {
    forall r ensures r !in s.owner {
      OwnerListed(s, r);
    }
  }

  lemma OneConnSafe(s: Swarm, p: PeerId, c: Conn)
    requires Consistent(s) && p in s.peers && (s.peers[p].closed ==> c.closed)
    requires c.requests == s.peers[p].requests && c.cancelled == s.peers[p].cancelled
    requires c.expected == s.peers[p].expected
    ensures Consistent(WithConn(s, p, c))
  {
    forall q, x ensures At(WithConn(s, p, c), q, x) {
      assert At(s, q, x);
    }
  }

  lemma ConnectSafe(s: Swarm, p: PeerId, c: Conn)
    requires Consistent(s) && p !in s.peers && c.requests == c.cancelled == {} && c.expected == map[]
    ensures Consistent(s.(conns := s.conns + {p}, peers := s.peers[p := c]))
  {
    var t := s.(conns := s.conns + {p}, peers := s.peers[p := c]);
    forall q, x ensures At(t, q, x) {
      assert At(s, q, x);
    }
  }

  lemma CollectSafe(s: Swarm, p: PeerId)
    requires Consistent(s) && p !in s.conns
    ensures Consistent(s.(peers := s.peers - {p}))
  {
    forall q, x ensures At(s.(peers := s.peers - {p}), q, x) {
      assert At(s, q, x);
    }
  }

  lemma ChokeSafe(s: Swarm, p: PeerId)
    requires Consistent(s)
    ensures Next(s, Choke(p)).Running? && Consistent(Next(s, Choke(p)).s)
  {
    if p in s.peers && !s.peers[p].peerChoking {
      DeleteAllRequestsSafe(s, p, s.conns);
      assert s.(conns := s.conns) == s;
      var t := if s.peers[p].fast then s else DeleteAllRequests(s, p);
      OneConnSafe(t, p, t.peers[p].(peerChoking := true));
    }
  }

  lemma DropSafe(s: Swarm, p: PeerId)
    requires Consistent(s)
    ensures Next(s, Drop(p)).Running? && Consistent(Next(s, Drop(p)).s)
  {
    if p in s.peers && s.peers[p].closed {
      DeleteAllRequestsSafe(s, p, s.conns - {p});
      var t := DeleteAllRequests(s.(conns := s.conns - {p}), p);
      if t.conns == {} {
        NothingOwned(t);
      }
    }
  }

  lemma TakeSafe(s: Swarm, p: PeerId, r: RequestIndex, ready: set<RequestIndex>, limit: int, now: int)
    requires Consistent(s)
    ensures Next(s, Take(p, r, ready, limit, now)).Running? && Consistent(Next(s, Take(p, r, ready, limit, now)).s)
  {
    if p in s.peers && |s.peers[p].requests| + |s.peers[p].cancelled| < limit && MayRequest(s, p, r, ready) {
      ObtainSafe(s, p, r, ready, limit, now);
    }
  }

  ghost predicate Quiet(e: Event) {
    e.Unchoke? || e.AllowFast? || e.Measure? || e.Close?
  }

  lemma QuietSafe(s: Swarm, e: Event)
    requires Consistent(s) && Quiet(e)
    ensures Next(s, e).Running? && Consistent(Next(s, e).s)
  {
    if e.p in s.peers {
      var c := Next(s, e).s.peers[e.p];
      OneConnSafe(s, e.p, c);
    }
  }

  lemma ListingSafe(s: Swarm, e: Event)
    requires Consistent(s) && (e.Connect? || e.Collect?)
    ensures Next(s, e).Running? && Consistent(Next(s, e).s)
  {
    if e.Connect? {
      if e.p !in s.peers {
        ConnectSafe(s, e.p, NewConn.(fast := e.fast, rejectsCancels := e.fast && e.rejectsCancels));
      }
    } else if e.p !in s.conns {
      CollectSafe(s, e.p);
    }
  }

  lemma MessageSafe(s: Swarm, e: Event)
    requires Consistent(s) && (e.Chunk? || e.Reject?)
    ensures Next(s, e).Running? && Consistent(Next(s, e).s)
  {
    if e.p in s.peers {
      if e.Chunk? {
        ReceiveChunkSafe(s, e.p, e.r, e.wanted);
      } else {
        RemoteRejectedSafe(s, e.p, e.r);
      }
    }
  }

  /** Every critical section keeps the structures consistent and reaches no panic. */
  lemma NextSafe(s: Swarm, e: Event)
    requires Consistent(s)
    ensures Next(s, e).Running? && Consistent(Next(s, e).s)
  {
    match e
    case Take(p, r, ready, limit, now) => TakeSafe(s, p, r, ready, limit, now);
    case Choke(p) => ChokeSafe(s, p);
    case Drop(p) => DropSafe(s, p);
    case CancelChunks(chunks) => CancelSetSafe(s, chunks);
    case _ =>
      if Quiet(e) {
        QuietSafe(s, e);
      } else if e.Connect? || e.Collect? {
        ListingSafe(s, e);
      } else {
        MessageSafe(s, e);
      }
  }

  lemma ObtainOwners(s: Swarm, p: PeerId, r: RequestIndex, ready: set<RequestIndex>, limit: int, now: int)
    requires Consistent(s) && p in s.peers && Obtain(s, p, r, ready, limit, now).Running?
    ensures Obtain(s, p, r, ready, limit, now).s.owner.Keys <= s.owner.Keys + {r}
  {
    if r in s.owner && s.owner[r].peer != p {
      CancelRequestSafe(s, r);
      RequestOwners(CancelSet(s, {r}), p, r, ready, limit, now);
    } else {
      RequestOwners(s, p, r, ready, limit, now);
    }
  }

  lemma RequestOwners(s: Swarm, p: PeerId, r: RequestIndex, ready: set<RequestIndex>, limit: int, now: int)
    requires p in s.peers && Request(s, p, r, ready, limit, now).Running?
    ensures Request(s, p, r, ready, limit, now).s.owner.Keys <= s.owner.Keys + {r}
  {
  }

  lemma ChunkOwners(s: Swarm, p: PeerId, r: RequestIndex, wanted: bool)
    requires Consistent(s) && p in s.peers && ReceiveChunk(s, p, r, wanted).Running?
    ensures ReceiveChunk(s, p, r, wanted).s.owner.Keys <= s.owner.Keys
  {
    CheckReceivedSafe(s, p, r);
  }

  /** Only taking a chunk gives a chunk an owner, and only that chunk. */
  lemma OwnersAfter(s: Swarm, e: Event)
    requires Consistent(s)
    ensures Next(s, e).Running?
    ensures Next(s, e).s.owner.Keys <= s.owner.Keys + if e.Take? then {e.r} else {}
  {
    NextSafe(s, e);
    match e
    case Take(p, r, ready, limit, now) =>
      if p in s.peers && Next(s, e) == Obtain(s, p, r, ready, limit, now) {
        ObtainOwners(s, p, r, ready, limit, now);
      }
    case Chunk(p, r, wanted) =>
      if p in s.peers {
        ChunkOwners(s, p, r, wanted);
      }
    case _ =>
  }

  // ---- What each event does ----------------------------------------------------------------------

  // What is on record between a connection and a chunk.
  datatype Mark = Mark(held: bool, cancelled: bool, expected: nat)

  function MarkAt(s: Swarm, p: PeerId, r: RequestIndex): Mark {
    if p in s.peers then Mark(r in s.peers[p].requests, r in s.peers[p].cancelled, Count(s.peers[p], r))
    else Mark(false, false, 0)
  }

  // A request withdrawn by us: its delivery is still possible, and only some peers acknowledge.
  function Withdrawn(m: Mark, acknowledges: bool): Mark {
    if m.held then m.(held := false, cancelled := m.cancelled || acknowledges) else m
  }

  // A request the peer has settled, by the data or by a reject.
  function Settled(m: Mark): Mark { Mark(false, false, if m.expected > 0 then m.expected - 1 else 0) }

  predicate Acknowledges(s: Swarm, q: PeerId) { q in s.peers && s.peers[q].rejectsCancels }

  // A REQUEST for r may go out to p.
  predicate MayAsk(s: Swarm, p: PeerId, r: RequestIndex, ready: set<RequestIndex>, limit: int) {
    && p in s.peers && !s.peers[p].closed && r in ready && !MarkAt(s, p, r).cancelled
    && (!s.peers[p].peerChoking || r in s.peers[p].allowedFast || MarkAt(s, p, r).held)
    && |s.peers[p].requests| + |s.peers[p].cancelled| < limit
  }

  /** The protocol, pair by pair: what an event leaves on record between q and x. */
  function Marked(s: Swarm, e: Event, q: PeerId, x: RequestIndex): Mark {
    var m := MarkAt(s, q, x);
    match e
    case Take(p, r, ready, limit, now) =>
      if x != r || !MayAsk(s, p, r, ready, limit) then m
      else if q != p then Withdrawn(m, Acknowledges(s, q))
      else if m.held then m
      else m.(held := true, expected := m.expected + 1)
    case Chunk(p, r, wanted) =>
      if x != r || MarkAt(s, p, r).expected == 0 then m
      else if q == p then Settled(m)
      else if wanted then Withdrawn(m, Acknowledges(s, q))
      else m
    case Reject(p, r) =>
      if q == p && x == r && p in s.peers && s.peers[p].fast && (m.held || m.cancelled) then Settled(m) else m
    case Choke(p) =>
      if q == p && p in s.peers && !s.peers[p].peerChoking && !s.peers[p].fast then m.(held := false) else m
    case CancelChunks(chunks) => if x in chunks then Withdrawn(m, Acknowledges(s, q)) else m
    case Drop(p) => if q == p && p in s.peers && s.peers[p].closed then m.(held := false) else m
    case Collect(p) => if q == p && p !in s.conns then Mark(false, false, 0) else m
    case _ => m
  }

  lemma CancelMarks(s: Swarm, chunks: set<RequestIndex>, q: PeerId, x: RequestIndex)
    ensures MarkAt(CancelSet(s, chunks), q, x)
         == if x in chunks then Withdrawn(MarkAt(s, q, x), Acknowledges(s, q)) else MarkAt(s, q, x)
  {
  }

  lemma RequestMarks(s: Swarm, p: PeerId, r: RequestIndex, ready: set<RequestIndex>, limit: int, now: int, q: PeerId, x: RequestIndex)
    requires p in s.peers && Request(s, p, r, ready, limit, now).Running?
    ensures var m := MarkAt(s, q, x);
            MarkAt(Request(s, p, r, ready, limit, now).s, q, x)
            == if q == p && x == r && !m.held then m.(held := true, expected := m.expected + 1) else m
  {
  }

  lemma TakeMarks(s: Swarm, p: PeerId, r: RequestIndex, ready: set<RequestIndex>, limit: int, now: int, q: PeerId, x: RequestIndex)
    requires Consistent(s) && MayAsk(s, p, r, ready, limit)
    ensures Obtain(s, p, r, ready, limit, now).Running?
    ensures MarkAt(Obtain(s, p, r, ready, limit, now).s, q, x) == Marked(s, Take(p, r, ready, limit, now), q, x)
  {
    ObtainSafe(s, p, r, ready, limit, now);
    assert At(s, p, r) && At(s, q, r);
    if r in s.owner && s.owner[r].peer != p {
      CancelRequestSafe(s, r);
      CancelMarks(s, {r}, q, x);
      CancelMarks(s, {r}, p, r);
      RequestMarks(CancelSet(s, {r}), p, r, ready, limit, now, q, x);
    } else {
      RequestMarks(s, p, r, ready, limit, now, q, x);
    }
  }

  lemma ReceivedMarks(s: Swarm, p: PeerId, r: RequestIndex, q: PeerId, x: RequestIndex)
    requires Consistent(s) && p in s.peers && MarkAt(s, p, r).expected > 0
    ensures CheckReceived(s, p, r).Running?
    ensures MarkAt(CheckReceived(s, p, r).s, q, x) == if q == p && x == r then Settled(MarkAt(s, q, x)) else MarkAt(s, q, x)
    ensures Acknowledges(CheckReceived(s, p, r).s, q) == Acknowledges(s, q)
  {
    CheckReceivedSafe(s, p, r);
    assert At(s, p, r) && At(s, q, x);
  }

  lemma ChunkMarks(s: Swarm, p: PeerId, r: RequestIndex, wanted: bool, q: PeerId, x: RequestIndex)
    requires Consistent(s) && p in s.peers
    ensures ReceiveChunk(s, p, r, wanted).Running?
    ensures MarkAt(ReceiveChunk(s, p, r, wanted).s, q, x) == Marked(s, Chunk(p, r, wanted), q, x)
  {
    ReceiveChunkSafe(s, p, r, wanted);
    if MarkAt(s, p, r).expected > 0 {
      ReceivedMarks(s, p, r, q, x);
      CheckReceivedSafe(s, p, r);
      var t := CheckReceived(s, p, r).s;
      assert At(t, q, r);
      if wanted && r in t.owner {
        var h := t.owner[r].peer;
        assert At(t, h, r);
        CancelSetAtOwner(t, h, r);
        CancelMarks(t, {r}, q, x);
        ReceivedMarks(s, p, r, p, r);
      }
    }
  }

  /** A reject settles exactly the chunk it names, if it was outstanding or awaiting its
      acknowledgement, and leaves it free for others to be asked for. */
  lemma RejectMarks(s: Swarm, p: PeerId, r: RequestIndex, q: PeerId, x: RequestIndex)
    requires Consistent(s) && p in s.peers
    ensures RemoteRejected(s, p, r).Running?
    ensures var t, m := RemoteRejected(s, p, r).s, MarkAt(s, p, r);
            && MarkAt(t, q, x) == (if q == p && x == r && (m.held || m.cancelled) then Settled(m) else MarkAt(s, q, x))
            && !MarkAt(t, p, r).held && !MarkAt(t, p, r).cancelled
            && t.owner == if m.held then s.owner - {r} else s.owner
  {
    RemoteRejectedSafe(s, p, r);
    assert At(s, p, r) && At(s, q, x);
  }

  lemma ForgetMarks(s: Swarm, p: PeerId, q: PeerId, x: RequestIndex)
    requires p in s.peers
    ensures var m := MarkAt(s, q, x);
            MarkAt(DeleteAllRequests(s, p), q, x) == if q == p then m.(held := false) else m
  {
  }

  /** Every event does to every connection and chunk what the protocol says, and nothing else. */
  lemma NextMarks(s: Swarm, e: Event, q: PeerId, x: RequestIndex)
    requires Consistent(s)
    ensures Next(s, e).Running?
    ensures MarkAt(Next(s, e).s, q, x) == Marked(s, e, q, x)
  {
    NextSafe(s, e);
    match e
    case Take(p, r, ready, limit, now) => if MayAsk(s, p, r, ready, limit) { TakeMarks(s, p, r, ready, limit, now, q, x); }
    case Chunk(p, r, wanted) => if p in s.peers { ChunkMarks(s, p, r, wanted, q, x); }
    case Reject(p, r) => if p in s.peers { RejectMarks(s, p, r, q, x); }
    case Choke(p) => if p in s.peers { ForgetMarks(s, p, q, x); }
    case CancelChunks(chunks) => CancelMarks(s, chunks, q, x);
    case Drop(p) => if p in s.peers { ForgetMarks(s.(conns := s.conns - {p}), p, q, x); }
    case _ =>
  }

  lemma RequestClaims(s: Swarm, p: PeerId, r: RequestIndex, ready: set<RequestIndex>, limit: int, now: int)
    requires p in s.peers && Request(s, p, r, ready, limit, now).Running?
    ensures Request(s, p, r, ready, limit, now).s.owner
         == if r in s.peers[p].requests then s.owner else s.owner[r := Claim(p, now)]
  {
  }

  lemma TakeClaims(s: Swarm, p: PeerId, r: RequestIndex, ready: set<RequestIndex>, limit: int, now: int)
    requires Consistent(s) && p in s.peers && Obtain(s, p, r, ready, limit, now).Running?
    ensures Obtain(s, p, r, ready, limit, now).s.owner
         == if r in s.peers[p].requests then s.owner else s.owner[r := Claim(p, now)]
  {
    assert At(s, p, r);
    if r in s.owner && s.owner[r].peer != p {
      CancelRequestSafe(s, r);
      CancelMarks(s, {r}, p, r);
      RequestClaims(CancelSet(s, {r}), p, r, ready, limit, now);
    } else {
      RequestClaims(s, p, r, ready, limit, now);
    }
  }

  lemma KeepsClaims(s: Swarm, e: Event, x: RequestIndex)
    requires Consistent(s) && !e.Take? && Next(s, e).Running? && x in Next(s, e).s.owner
    ensures x in s.owner && Next(s, e).s.owner[x] == s.owner[x]
  {
    if e.Chunk? && e.p in s.peers {
      CheckReceivedSafe(s, e.p, e.r);
    }
  }

  /** A chunk's owner and the time of its request are those of the REQUEST last sent for it. */
  lemma NextClaims(s: Swarm, e: Event, x: RequestIndex)
    requires Consistent(s)
    ensures Next(s, e).Running?
    ensures var t := Next(s, e).s;
            x in t.owner ==>
              if e.Take? && e.r == x && MayAsk(s, e.p, x, e.ready, e.limit) && !MarkAt(s, e.p, x).held
              then t.owner[x] == Claim(e.p, e.now)
              else x in s.owner && t.owner[x] == s.owner[x]
  {
    NextSafe(s, e);
    if x in Next(s, e).s.owner {
      if !e.Take? {
        KeepsClaims(s, e, x);
      } else if MayAsk(s, e.p, e.r, e.ready, e.limit) {
        TakeClaims(s, e.p, e.r, e.ready, e.limit, e.now);
      }
    }
  }

  // A connection's settings, after an event.
  ghost predicate SettingsAfter(c: Conn, d: Conn, e: Event, q: PeerId) {
    && d.fast == c.fast && d.rejectsCancels == c.rejectsCancels
    && d.closed == (c.closed || e == Close(q))
    && d.peerChoking == (e == Choke(q) || (c.peerChoking && e != Unchoke(q)))
    && d.allowedFast == (if e.AllowFast? && e.p == q then e.chunks else c.allowedFast)
    && (d.rate, d.lastUseful) == (if e.Measure? && e.p == q then (e.rate, e.lastUseful) else (c.rate, c.lastUseful))
  }

  // All but the record of requests.
  function Plain(c: Conn): Conn { c.(requests := {}, cancelled := {}, expected := map[]) }

  ghost predicate SamePlain(s: Swarm, t: Swarm) {
    t.conns == s.conns && t.peers.Keys == s.peers.Keys && forall q <- s.peers :: Plain(t.peers[q]) == Plain(s.peers[q])
  }

  lemma CancelPlain(s: Swarm, chunks: set<RequestIndex>)
    ensures SamePlain(s, CancelSet(s, chunks))
  {
  }

  lemma RequestPlain(s: Swarm, p: PeerId, r: RequestIndex, ready: set<RequestIndex>, limit: int, now: int)
    requires p in s.peers && Request(s, p, r, ready, limit, now).Running?
    ensures SamePlain(s, Request(s, p, r, ready, limit, now).s)
  {
  }

  lemma ReceivedPlain(s: Swarm, p: PeerId, r: RequestIndex)
    requires p in s.peers && CheckReceived(s, p, r).Running?
    ensures SamePlain(s, CheckReceived(s, p, r).s)
  {
  }

  lemma TakePlain(s: Swarm, p: PeerId, r: RequestIndex, ready: set<RequestIndex>, limit: int, now: int)
    requires Consistent(s) && p in s.peers && Obtain(s, p, r, ready, limit, now).Running?
    ensures SamePlain(s, Obtain(s, p, r, ready, limit, now).s)
  {
    if r in s.owner && s.owner[r].peer != p {
      CancelRequestSafe(s, r);
      CancelPlain(s, {r});
      RequestPlain(CancelSet(s, {r}), p, r, ready, limit, now);
    } else {
      RequestPlain(s, p, r, ready, limit, now);
    }
  }

  lemma ChunkPlain(s: Swarm, p: PeerId, r: RequestIndex, wanted: bool)
    requires Consistent(s) && p in s.peers
    ensures ReceiveChunk(s, p, r, wanted).Running? && SamePlain(s, ReceiveChunk(s, p, r, wanted).s)
  {
    ReceiveChunkSafe(s, p, r, wanted);
    CheckReceivedSafe(s, p, r);
    ReceivedPlain(s, p, r);
    var t := CheckReceived(s, p, r).s;
    if Count(s.peers[p], r) > 0 && wanted && r in t.owner {
      assert At(t, t.owner[r].peer, r);
      CancelSetAtOwner(t, t.owner[r].peer, r);
      CancelPlain(t, {r});
    }
  }

  lemma RejectPlain(s: Swarm, p: PeerId, r: RequestIndex)
    requires p in s.peers && RemoteRejected(s, p, r).Running?
    ensures SamePlain(s, RemoteRejected(s, p, r).s)
  {
  }

  lemma OperationPlain(s: Swarm, e: Event)
    requires Consistent(s) && (e.Take? || e.Chunk? || e.Reject? || e.CancelChunks?)
    ensures Next(s, e).Running? && SamePlain(s, Next(s, e).s)
  {
    NextSafe(s, e);
    match e
    case Take(p, r, ready, limit, now) =>
      if p in s.peers && Next(s, e) == Obtain(s, p, r, ready, limit, now) {
        TakePlain(s, p, r, ready, limit, now);
      }
    case Chunk(p, r, wanted) => if p in s.peers { ChunkPlain(s, p, r, wanted); }
    case Reject(p, r) => if p in s.peers && s.peers[p].fast { RejectPlain(s, p, r); }
    case CancelChunks(chunks) => CancelPlain(s, chunks);
  }

  lemma PlainSettings(c: Conn, d: Conn, e: Event, q: PeerId)
    requires Plain(d) == Plain(c) && (e.Take? || e.Chunk? || e.Reject? || e.CancelChunks?)
    ensures SettingsAfter(c, d, e, q)
  {
    var x, y := Plain(c), Plain(d);
    assert x.fast == c.fast && y.fast == d.fast && x.rejectsCancels == c.rejectsCancels && y.rejectsCancels == d.rejectsCancels;
    assert x.closed == c.closed && y.closed == d.closed && x.peerChoking == c.peerChoking && y.peerChoking == d.peerChoking;
    assert x.allowedFast == c.allowedFast && y.allowedFast == d.allowedFast;
    assert x.rate == c.rate && y.rate == d.rate && x.lastUseful == c.lastUseful && y.lastUseful == d.lastUseful;
  }

  lemma OtherSettings(s: Swarm, e: Event, q: PeerId)
    requires Consistent(s) && !(e.Take? || e.Chunk? || e.Reject? || e.CancelChunks?) && q in s.peers
    requires Next(s, e).Running? && q in Next(s, e).s.peers
    ensures SettingsAfter(s.peers[q], Next(s, e).s.peers[q], e, q)
  {
    match e
    case Choke(p) =>
    case Drop(p) =>
    case Unchoke(p) =>
    case _ =>
  }

  /** Connections come and go, and their settings change, only by the events that say so. */
  lemma NextSettings(s: Swarm, e: Event, q: PeerId)
    requires Consistent(s)
    ensures Next(s, e).Running?
    ensures var t := Next(s, e).s;
            && (q in t.peers <==> (e.Connect? && e.p == q) || (q in s.peers && !(e == Collect(q) && q !in s.conns)))
            && (q in t.conns <==> (e.Connect? && e.p == q && q !in s.peers)
                                  || (q in s.conns && !(e == Drop(q) && s.peers[q].closed)))
            && (q in s.peers && q in t.peers ==> SettingsAfter(s.peers[q], t.peers[q], e, q))
            && (q !in s.peers && q in t.peers ==>
                  t.peers[q] == NewConn.(fast := e.fast, rejectsCancels := e.fast && e.rejectsCancels))
  {
    NextSafe(s, e);
    if e.Take? || e.Chunk? || e.Reject? || e.CancelChunks? {
      OperationPlain(s, e);
      if q in s.peers {
        PlainSettings(s.peers[q], Next(s, e).s.peers[q], e, q);
      }
    } else if q in s.peers && q in Next(s, e).s.peers {
      OtherSettings(s, e, q);
    }
  }

  function Run(s: Swarm, es: seq<Event>): Outcome
    decreases |es|
  {
    if es == [] then Running(s)
    else
      var o := Next(s, es[0]);
      if o.Panicked? then Panicked else Run(o.s, es[1..])
  }

  const Empty: Swarm := Swarm({}, map[], map[])

  lemma {:induction false} RunFrom(s: Swarm, es: seq<Event>)
    requires Consistent(s)
    ensures Run(s, es).Running? && Consistent(Run(s, es).s)
    decreases |es|
  {
    if es != [] {
      NextSafe(s, es[0]);
      RunFrom(Next(s, es[0]).s, es[1..]);
    }
  }

  // The step sends p a REQUEST for r, or settles one it was sent.
  ghost predicate Asks(s: Swarm, e: Event, p: PeerId, r: RequestIndex) {
    e.Take? && e.p == p && e.r == r && MayAsk(s, p, r, e.ready, e.limit) && !MarkAt(s, p, r).held
  }

  ghost predicate Answers(s: Swarm, e: Event, p: PeerId, r: RequestIndex) {
    var m := MarkAt(s, p, r);
    || (e.Chunk? && e.p == p && e.r == r && m.expected > 0)
    || (e == Reject(p, r) && p in s.peers && s.peers[p].fast && (m.held || m.cancelled))
  }

  ghost function Owed(s: Swarm, es: seq<Event>, p: PeerId, r: RequestIndex): int
    decreases |es|
  {
    if es == [] || Next(s, es[0]).Panicked? then 0
    else
      (if Asks(s, es[0], p, r) then 1 else 0) - (if Answers(s, es[0], p, r) then 1 else 0)
      + Owed(Next(s, es[0]).s, es[1..], p, r)
  }

  lemma {:induction false} OwedFrom(s: Swarm, es: seq<Event>, p: PeerId, r: RequestIndex)
    requires Consistent(s) && Collect(p) !in es
    ensures Run(s, es).Running? && MarkAt(Run(s, es).s, p, r).expected == MarkAt(s, p, r).expected + Owed(s, es, p, r)
    decreases |es|
  {
    if es != [] {
      NextSafe(s, es[0]);
      OwedStep(s, es[0], p, r);
      OwedFrom(Next(s, es[0]).s, es[1..], p, r);
    }
  }

  lemma OwedStep(s: Swarm, e: Event, p: PeerId, r: RequestIndex)
    requires Consistent(s) && e != Collect(p)
    ensures Next(s, e).Running?
    ensures MarkAt(Next(s, e).s, p, r).expected
         == MarkAt(s, p, r).expected + (if Asks(s, e, p, r) then 1 else 0) - (if Answers(s, e, p, r) then 1 else 0)
  {
    NextMarks(s, e, p, r);
    assert At(s, p, r);
  }

  /** Deliveries are expected exactly as often as requests were sent and neither answered nor rejected:
      choking, cancelling and closing do not change what may still arrive. */
  lemma ExpectedIsOwed(es: seq<Event>, p: PeerId, r: RequestIndex)
    requires Collect(p) !in es
    ensures Run(Empty, es).Running? && MarkAt(Run(Empty, es).s, p, r).expected == Owed(Empty, es, p, r)
  {
    assert Consistent(Empty);
    OwedFrom(Empty, es, p, r);
  }

  ghost predicate Accounted(c: Conn, r: RequestIndex) {
    && !(r in c.requests && r in c.cancelled)
    && Count(c, r) >= (if r in c.requests then 1 else 0) + (if r in c.cancelled then 1 else 0)
  }

  /** No event sequence over any number of connections reaches a panic, and in every reached state a
      chunk is outstanding at p exactly when the owner map names p, p then being a listed connection;
      outstanding and cancelled are disjoint; and every one of them is still expected. */
  lemma RunsAreSafe(es: seq<Event>)
    ensures Run(Empty, es).Running?
    ensures var s := Run(Empty, es).s;
            && (forall p, r :: p in s.peers && r in s.peers[p].requests <==> r in s.owner && s.owner[r].peer == p)
            && (forall r <- s.owner :: s.owner[r].peer in s.conns)
            && (forall p, r :: p in s.peers ==> Accounted(s.peers[p], r))
  {
    assert Consistent(Empty);
    RunFrom(Empty, es);
    var s := Run(Empty, es).s;
    forall p, r ensures p in s.peers && r in s.peers[p].requests <==> r in s.owner && s.owner[r].peer == p {
      assert At(s, p, r);
    }
    forall r | r in s.owner ensures s.owner[r].peer in s.conns {
      OwnerListed(s, r);
    }
    forall p, r | p in s.peers ensures Accounted(s.peers[p], r) {
      assert At(s, p, r);
    }
  }
}
