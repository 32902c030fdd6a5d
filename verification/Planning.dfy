/**
 * The torrent object that the request operations mutate, and the loop that turns a plan into
 * requests. Each place where the original panics is an assertion here.
 */
module Planning {
  import opened Basics
  import opened R = Requests
  import Stealing

  const LOW_WATER := HIGH_WATER / 2
  // Lengths on the wire of INTERESTED and REQUEST (section "peer messages" of BEP 3).
  const INTERESTED_LEN := 5
  const REQUEST_LEN := 17
  const MAX_LOCAL_TO_REMOTE := (HIGH_WATER - LOW_WATER - INTERESTED_LEN) / REQUEST_LEN
  const MIN_REQUEST_QUEUE := 16

  /** How many requests a connection may have in flight: two seconds of its measured rate, never
      below one, never above what the peer or the write buffer can take. */
  function NominalMaxRequests(rate: real, chunkSize: nat, peerMax: int): (n: int)
    ensures 1 <= n <= MAX_LOCAL_TO_REMOTE
    ensures peerMax >= 1 ==> n <= peerMax
    ensures peerMax >= MIN_REQUEST_QUEUE ==> n >= MIN_REQUEST_QUEUE
    // Two seconds of the rate fit, unless the peer or the buffer forbids; more only up to the floor.
    ensures chunkSize > 0 && n < peerMax && n < MAX_LOCAL_TO_REMOTE ==> 2.0 * rate < (n + 1) as real * chunkSize as real
    ensures n > MIN_REQUEST_QUEUE ==> chunkSize > 0 && n as real * chunkSize as real <= 2.0 * rate
  {
    if rate > 0.0 && chunkSize > 0 then
      var want := Max(MIN_REQUEST_QUEUE, (rate * 2.0 / chunkSize as real).Floor);
      var n := Max(1, Min(peerMax, Min(want, MAX_LOCAL_TO_REMOTE)));
      RateFits(rate, chunkSize, n);
      n
    else
      Max(1, Min(peerMax, Min(MIN_REQUEST_QUEUE, MAX_LOCAL_TO_REMOTE)))
  }

  lemma RateFits(rate: real, chunkSize: nat, n: int)
    requires rate > 0.0 && chunkSize > 0
    ensures var q := (rate * 2.0 / chunkSize as real).Floor;
            && (n <= q ==> n as real * chunkSize as real <= 2.0 * rate)
            && (n >= q ==> 2.0 * rate < (n + 1) as real * chunkSize as real)
  {
    RateDivision(rate, chunkSize);
    var q := (rate * 2.0 / chunkSize as real).Floor;
    if n <= q {
      Scale(n as real, q as real, chunkSize as real);
    }
    if n >= q {
      Scale((q + 1) as real, (n + 1) as real, chunkSize as real);
    }
  }

  lemma RateDivision(rate: real, chunkSize: nat)
    requires rate > 0.0 && chunkSize > 0
    ensures var q := (rate * 2.0 / chunkSize as real).Floor;
            q as real * chunkSize as real <= 2.0 * rate < (q + 1) as real * chunkSize as real
  {
    var c := chunkSize as real;
    var x := rate * 2.0 / c;
    assert x * c == 2.0 * rate;
    var low, above := x.Floor as real, (x.Floor + 1) as real;
    assert low <= x < above;
    Scale(low, x, c);
    Scale(x, above, c);
    assert x * c < above * c;
    assert above == (x.Floor + 1) as real;
    assert 2.0 * rate < above * c;
  }

  lemma Scale(x: real, y: real, c: real)
    requires x <= y && c > 0.0
    ensures x * c <= y * c && (x < y ==> x * c < y * c)
  {
    assert (y - x) * c >= 0.0;
    assert x < y ==> (y - x) * c > 0.0;
    assert (y - x) * c == y * c - x * c;
  }

  datatype Reason = PeerCancelled | RemoteReject | Other

  function ChunkRange(start: RequestIndex, end: RequestIndex): (chunks: set<RequestIndex>)
    ensures forall r :: r in chunks <==> start <= r < end
  {
    if end <= start then {} else ChunkRange(start, end - 1) + {end - 1}
  }

  ghost function DeleteSome(s: Swarm, p: PeerId, done: set<RequestIndex>): Swarm
    requires p in s.peers
  {
    WithConn(s.(owner := s.owner - done), p, s.peers[p].(requests := s.peers[p].requests - done))
  }

  // What taking over chunks for p leaves alone, seen at one connection and one chunk.
  ghost predicate SteadyAt(before: Swarm, after: Swarm, p: PeerId, q: PeerId, r: RequestIndex) {
    && (Holds(before, p, r) ==> Holds(after, p, r))
    && (q != p && Holds(after, q, r) ==> Holds(before, q, r))
    && (r in before.owner ==> r in after.owner
                              && (after.owner[r].peer == before.owner[r].peer || after.owner[r].peer == p))
  }

  /** Connection p only gains chunks, every other connection only loses them, and only to p; no chunk
      loses its owner. */
  ghost predicate Steady(before: Swarm, after: Swarm, p: PeerId) {
    && p in before.peers && p in after.peers
    && after.conns == before.conns && after.peers.Keys == before.peers.Keys
    && after.peers[p].(requests := {}, expected := map[]) == before.peers[p].(requests := {}, expected := map[])
    && forall q, r :: SteadyAt(before, after, p, q, r)
  }

  lemma SteadyReflexive(s: Swarm, p: PeerId)
    requires p in s.peers
    ensures Steady(s, s, p)
  {
    forall q, r ensures SteadyAt(s, s, p, q, r) {
    }
  }

  lemma SteadyTransitive(a: Swarm, b: Swarm, c: Swarm, p: PeerId)
    requires Steady(a, b, p) && Steady(b, c, p)
    ensures Steady(a, c, p)
  {
    forall q, r ensures SteadyAt(a, c, p, q, r) {
      assert SteadyAt(a, b, p, q, r) && SteadyAt(b, c, p, q, r);
    }
  }

  lemma CancelKeepsOthers(s: Swarm, p: PeerId, r: RequestIndex)
    requires Consistent(s) && p in s.peers && r !in s.peers[p].requests
    ensures CancelSet(s, {r}).peers[p] == s.peers[p]
    ensures r !in CancelSet(s, {r}).owner
  {
    CancelInNothing(s.peers[p], r);
  }

  // Ownership decides who holds what, so it is enough to look at the owners.
  lemma SteadyByOwners(s: Swarm, t: Swarm, p: PeerId, r: RequestIndex)
    requires Consistent(s) && Consistent(t) && Names(t, p, r)
    requires t.owner == s.owner[r := t.owner[r]]
    ensures forall q, x :: SteadyAt(s, t, p, q, x)
  {
    forall q, x ensures SteadyAt(s, t, p, q, x) {
      assert At(s, q, x) && At(t, q, x) && At(s, p, x) && At(t, p, x);
    }
  }

  lemma ObtainOwner(s: Swarm, p: PeerId, r: RequestIndex, ready: set<RequestIndex>, limit: int, now: int)
    requires Consistent(s) && MayRequest(s, p, r, ready) && |s.peers[p].requests| < limit
    ensures var o := Obtain(s, p, r, ready, limit, now);
            && o.Running? && o.s.conns == s.conns && o.s.peers.Keys == s.peers.Keys
            && Names(o.s, p, r) && o.s.owner == s.owner[r := o.s.owner[r]]
            && o.s.peers[p] == s.peers[p].(requests := s.peers[p].requests + {r}, expected := o.s.peers[p].expected)
            && ((r in s.owner ==> s.owner[r].peer == p)
                ==> forall q <- s.peers :: q != p ==> o.s.peers[q] == s.peers[q])
  {
    ObtainSafe(s, p, r, ready, limit, now);
    CancelRequestSafe(s, r);
    assert At(s, p, r);
    if r in s.peers[p].requests {
      assert s.peers[p].requests + {r} == s.peers[p].requests;
      assert s.owner == s.owner[r := s.owner[r]];
    } else {
      CancelKeepsOthers(s, p, r);
    }
  }

  lemma ObtainSteady(s: Swarm, p: PeerId, r: RequestIndex, ready: set<RequestIndex>, limit: int, now: int)
    requires Consistent(s) && MayRequest(s, p, r, ready) && |s.peers[p].requests| < limit
    ensures Obtain(s, p, r, ready, limit, now).Running? && Consistent(Obtain(s, p, r, ready, limit, now).s)
    ensures Steady(s, Obtain(s, p, r, ready, limit, now).s, p)
    ensures Obtain(s, p, r, ready, limit, now).s.peers[p].requests == s.peers[p].requests + {r}
    ensures Names(Obtain(s, p, r, ready, limit, now).s, p, r)
    ensures (r in s.owner ==> s.owner[r].peer == p)
            ==> forall q <- s.peers :: q != p ==> Obtain(s, p, r, ready, limit, now).s.peers[q] == s.peers[q]
  {
    ObtainSafe(s, p, r, ready, limit, now);
    ObtainOwner(s, p, r, ready, limit, now);
    SteadyByOwners(s, Obtain(s, p, r, ready, limit, now).s, p, r);
  }

  // On what terms a plan is applied: the chunks of pieces that can be asked for, why the requests are
  // updated, the connection's nominal maximum, and the time.
  datatype Terms = Terms(ready: set<RequestIndex>, reason: Reason, limit: int, now: int)

  // ---- Planning's loop, as a function --------------------------------------------------------------

  function QueueOf(c: Conn): Stealing.Peer {
    Stealing.Peer(|c.requests|, c.rate, c.lastUseful)
  }

  predicate HeldElsewhere(s: Swarm, p: PeerId, r: RequestIndex) {
    r in s.owner && s.owner[r].peer != p && s.owner[r].peer in s.peers
  }

  predicate HolderSilent(s: Swarm, r: RequestIndex, now: int)
    requires r in s.owner && s.owner[r].peer in s.peers
  {
    Stealing.Silent(s.owner[r].when, now, s.peers[s.owner[r].peer].lastUseful)
  }

  predicate WouldSteal(s: Swarm, p: PeerId, r: RequestIndex, now: int)
    requires p in s.peers && r in s.owner && s.owner[r].peer in s.peers
  {
    Stealing.Steals(QueueOf(s.peers[p]), QueueOf(s.peers[s.owner[r].peer]), HolderSilent(s, r, now))
  }

  // The loop passes a chunk over in reply to a reject, and does not take it from another connection
  // in reply to a cancel or against the stealing rules.
  predicate PassesOver(s: Swarm, p: PeerId, r: RequestIndex, u: Terms)
    requires p in s.peers
  {
    || u.reason == RemoteReject
    || (HeldElsewhere(s, p, r) && (u.reason == PeerCancelled || !WouldSteal(s, p, r, u.now)))
  }

  function Round(s: Swarm, p: PeerId, r: RequestIndex, u: Terms): Outcome
    requires p in s.peers
  {
    if PassesOver(s, p, r, u) then Running(s) else Obtain(s, p, r, u.ready, u.limit, u.now)
  }

  predicate HasRoom(s: Swarm, p: PeerId, limit: int) {
    p in s.peers && |s.peers[p].requests| + |s.peers[p].cancelled| < limit
  }

  // Works through the chunks in the order the heap yields them, while there is room.
  function Apply(s: Swarm, p: PeerId, plan: seq<RequestIndex>, u: Terms): Outcome
    decreases |plan|
  {
    if plan == [] || !HasRoom(s, p, u.limit) then Running(s)
    else
      var o := Round(s, p, plan[0], u);
      if o.Panicked? then Panicked else Apply(o.s, p, plan[1..], u)
  }

  lemma RoundSafe(s: Swarm, p: PeerId, r: RequestIndex, u: Terms)
    requires Consistent(s) && MayRequest(s, p, r, u.ready) && HasRoom(s, p, u.limit)
    ensures var o := Round(s, p, r, u);
            && o.Running? && Consistent(o.s) && Steady(s, o.s, p)
            && o.s.owner.Keys <= s.owner.Keys + {r}
  {
    if PassesOver(s, p, r, u) {
      SteadyReflexive(s, p);
    } else {
      ObtainSteady(s, p, r, u.ready, u.limit, u.now);
      ObtainOwners(s, p, r, u.ready, u.limit, u.now);
    }
  }

  lemma StillMayRequest(s: Swarm, t: Swarm, p: PeerId, r: RequestIndex, ready: set<RequestIndex>)
    requires Steady(s, t, p) && MayRequest(s, p, r, ready)
    ensures MayRequest(t, p, r, ready)
  {
    assert SteadyAt(s, t, p, p, r);
    var c, d := s.peers[p].(requests := {}, expected := map[]), t.peers[p].(requests := {}, expected := map[]);
    assert c == d;
    assert d.closed == c.closed && d.cancelled == c.cancelled;
    assert d.peerChoking == c.peerChoking && d.allowedFast == c.allowedFast;
  }

  // Connection p gains chunks of the plan, up to the limit.
  ghost predicate Gains(s: Swarm, t: Swarm, p: PeerId, plan: seq<RequestIndex>, reason: Reason, limit: int) {
    && p in s.peers && p in t.peers
    && (forall r <- t.peers[p].requests :: r in s.peers[p].requests || r in plan)
    && t.peers[p].cancelled == s.peers[p].cancelled
    && (t.peers[p].requests == s.peers[p].requests || |t.peers[p].requests| + |t.peers[p].cancelled| <= limit)
    && (reason == RemoteReject ==> t == s)
    && (reason == PeerCancelled ==> forall q <- s.peers :: q != p ==> q in t.peers && t.peers[q] == s.peers[q])
  }

  lemma RoundGains(s: Swarm, p: PeerId, r: RequestIndex, u: Terms)
    requires Consistent(s) && MayRequest(s, p, r, u.ready) && HasRoom(s, p, u.limit)
    ensures var o := Round(s, p, r, u);
            o.Running? && Gains(s, o.s, p, [r], u.reason, u.limit) && (u.reason != RemoteReject ==> r in o.s.owner)
  {
    if !PassesOver(s, p, r, u) {
      ObtainSteady(s, p, r, u.ready, u.limit, u.now);
      Grown(s.peers[p].requests, r);
      if r in s.owner {
        assert At(s, s.owner[r].peer, r);
      }
    }
  }

  /** When a round ends with p holding a chunk it did not hold: never in reply to a reject; a free chunk
      always; another's never in reply to a cancel, and otherwise exactly when the holder loses it by
      the rules, in which case the holder has it no more. */
  lemma RoundTakes(s: Swarm, p: PeerId, r: RequestIndex, u: Terms)
    requires Consistent(s) && MayRequest(s, p, r, u.ready) && HasRoom(s, p, u.limit) && !Holds(s, p, r)
    ensures Round(s, p, r, u).Running?
    ensures Holds(Round(s, p, r, u).s, p, r) <==>
              && u.reason != RemoteReject
              && (r in s.owner ==>
                    && u.reason != PeerCancelled && s.owner[r].peer in s.peers
                    && Stealing.LosesTo(QueueOf(s.peers[s.owner[r].peer]), QueueOf(s.peers[p]), s.owner[r].when, u.now))
    ensures Holds(Round(s, p, r, u).s, p, r) ==>
              forall q :: q != p ==> !Holds(Round(s, p, r, u).s, q, r)
  {
    RoundSafe(s, p, r, u);
    assert At(s, p, r);
    var t := Round(s, p, r, u).s;
    forall q | q != p && Holds(t, p, r) ensures !Holds(t, q, r) {
      assert At(t, q, r) && At(t, p, r);
    }
    if r in s.owner {
      var holder := s.owner[r].peer;
      assert At(s, holder, r);
      Stealing.StealsWhen(QueueOf(s.peers[p]), QueueOf(s.peers[holder]), s.owner[r].when, u.now);
    }
    if !PassesOver(s, p, r, u) {
      ObtainSteady(s, p, r, u.ready, u.limit, u.now);
    }
  }

  lemma GainsMore(s: Swarm, m: Swarm, t: Swarm, p: PeerId, plan: seq<RequestIndex>, reason: Reason, limit: int)
    requires plan != [] && Gains(s, m, p, [plan[0]], reason, limit) && Gains(m, t, p, plan[1..], reason, limit)
    ensures Gains(s, t, p, plan, reason, limit)
  {
  }

  ghost predicate Planned(s: Swarm, p: PeerId, plan: seq<RequestIndex>, ready: set<RequestIndex>) {
    p in s.peers && forall r <- plan :: MayRequest(s, p, r, ready)
  }

  lemma PlanAfter(s: Swarm, m: Swarm, p: PeerId, plan: seq<RequestIndex>, ready: set<RequestIndex>)
    requires Steady(s, m, p) && Planned(s, p, plan, ready)
    ensures Planned(m, p, plan, ready)
  {
    forall r | r in plan ensures MayRequest(m, p, r, ready) {
      StillMayRequest(s, m, p, r, ready);
    }
  }

  // One round of a plan with room for it.
  lemma ApplyOne(s: Swarm, p: PeerId, plan: seq<RequestIndex>, u: Terms) returns (m: Swarm)
    requires Consistent(s) && Planned(s, p, plan, u.ready) && plan != [] && HasRoom(s, p, u.limit)
    ensures Apply(s, p, plan, u) == Apply(m, p, plan[1..], u)
    ensures Consistent(m) && Steady(s, m, p) && Planned(m, p, plan[1..], u.ready)
    ensures m.owner.Keys <= s.owner.Keys + {plan[0]}
    ensures Gains(s, m, p, [plan[0]], u.reason, u.limit)
    ensures u.reason != RemoteReject ==> plan[0] in m.owner
  {
    RoundSafe(s, p, plan[0], u);
    RoundGains(s, p, plan[0], u);
    m := Round(s, p, plan[0], u).s;
    var rest := plan[1..];
    assert forall r <- rest :: r in plan;
    PlanAfter(s, m, p, rest, u.ready);
  }

  /** Whatever order the chunks come in, applying a plan reaches no panic, keeps the structures
      consistent, and gives only planned chunks a new owner. */
  lemma {:induction false} ApplySafe(s: Swarm, p: PeerId, plan: seq<RequestIndex>, u: Terms)
    requires Consistent(s) && Planned(s, p, plan, u.ready)
    ensures var o := Apply(s, p, plan, u);
            && o.Running? && Consistent(o.s) && Steady(s, o.s, p)
            && forall r <- o.s.owner :: r in s.owner || r in plan
    decreases |plan|
  {
    if plan == [] || !HasRoom(s, p, u.limit) {
      SteadyReflexive(s, p);
    } else {
      var m := ApplyOne(s, p, plan, u);
      var rest := plan[1..];
      ApplySafe(m, p, rest, u);
      SteadyTransitive(s, m, Apply(m, p, rest, u).s, p);
    }
  }

  lemma {:induction false} ApplyGains(s: Swarm, p: PeerId, plan: seq<RequestIndex>, u: Terms)
    requires Consistent(s) && Planned(s, p, plan, u.ready)
    requires Apply(s, p, plan, u).Running?
    ensures Gains(s, Apply(s, p, plan, u).s, p, plan, u.reason, u.limit)
    decreases |plan|
  {
    if plan != [] && HasRoom(s, p, u.limit) {
      var m := ApplyOne(s, p, plan, u);
      var rest := plan[1..];
      ApplyGains(m, p, rest, u);
      GainsMore(s, m, Apply(m, p, rest, u).s, p, plan, u.reason, u.limit);
    }
  }

  // With room left at the end, every chunk of the plan was reached.
  lemma {:induction false} ApplyReaches(s: Swarm, p: PeerId, plan: seq<RequestIndex>, u: Terms, r: RequestIndex)
    requires Consistent(s) && Planned(s, p, plan, u.ready) && u.reason != RemoteReject && r in plan
    requires Apply(s, p, plan, u).Running?
    requires HasRoom(Apply(s, p, plan, u).s, p, u.limit)
    ensures r in Apply(s, p, plan, u).s.owner
    decreases |plan|
  {
    var m := ApplyOne(s, p, plan, u);
    var rest := plan[1..];
    if r in rest {
      ApplyReaches(m, p, rest, u, r);
    } else {
      ApplySafe(m, p, rest, u);
      assert SteadyAt(m, Apply(m, p, rest, u).s, p, p, r);
    }
  }

  // With room left, the next chunk is simply the next round.
  lemma {:induction false} ApplyMore(s: Swarm, p: PeerId, plan: seq<RequestIndex>, r: RequestIndex, u: Terms)
    requires Apply(s, p, plan, u).Running?
    requires HasRoom(Apply(s, p, plan, u).s, p, u.limit)
    ensures Apply(s, p, plan + [r], u)
         == Round(Apply(s, p, plan, u).s, p, r, u)
    decreases |plan|
  {
    var more := plan + [r];
    if plan == [] {
      var o := Round(s, p, r, u);
      assert more[0] == r && more[1..] == [];
      assert o.Running? ==> Apply(o.s, p, [], u) == o;
    } else {
      assert more[0] == plan[0] && more[1..] == plan[1..] + [r];
      ApplyMore(Round(s, p, plan[0], u).s, p, plan[1..], r, u);
    }
  }

  lemma NextRound(s: Swarm, m: Swarm, p: PeerId, plan: seq<RequestIndex>, r: RequestIndex, u: Terms)
    requires Consistent(s) && Planned(s, p, plan, u.ready) && MayRequest(s, p, r, u.ready)
    requires Apply(s, p, plan, u) == Running(m) && HasRoom(m, p, u.limit)
    ensures MayRequest(m, p, r, u.ready)
    ensures Apply(s, p, plan + [r], u) == Round(m, p, r, u)
  {
    ApplySafe(s, p, plan, u);
    StillMayRequest(s, m, p, r, u.ready);
    ApplyMore(s, p, plan, r, u);
  }

  // All that a plan applied to the end has done.
  lemma AppliedAll(s: Swarm, t: Swarm, p: PeerId, plan: seq<RequestIndex>, u: Terms)
    requires Consistent(s) && Planned(s, p, plan, u.ready)
    requires Apply(s, p, plan, u) == Running(t)
    ensures Steady(s, t, p) && Gains(s, t, p, plan, u.reason, u.limit)
    ensures u.reason != RemoteReject && HasRoom(t, p, u.limit) ==> forall r <- plan :: r in t.owner
  {
    ApplySafe(s, p, plan, u);
    ApplyGains(s, p, plan, u);
    if u.reason != RemoteReject && HasRoom(t, p, u.limit) {
      forall r | r in plan ensures r in t.owner {
        ApplyReaches(s, p, plan, u, r);
      }
    }
  }

  lemma InTermsOfDesired(s: Swarm, t: Swarm, p: PeerId, desired: set<RequestIndex>, left: set<RequestIndex>,
                         plan: seq<RequestIndex>, u: Terms)
    requires Gains(s, t, p, plan, u.reason, u.limit)
    requires u.reason != RemoteReject && HasRoom(t, p, u.limit) ==> forall r <- plan :: r in t.owner
    requires (forall r :: r in desired <==> r in left || r in plan) && (left == {} || !HasRoom(t, p, u.limit))
    ensures forall r <- plan :: r in desired
    ensures t.peers[p].requests <= s.peers[p].requests + desired
    ensures |t.peers[p].requests| <= Max(|s.peers[p].requests|, u.limit)
    ensures |t.peers[p].requests| + |t.peers[p].cancelled| <= Max(|s.peers[p].requests| + |s.peers[p].cancelled|, u.limit)
    ensures u.reason != RemoteReject && HasRoom(t, p, u.limit) ==> desired <= t.owner.Keys
    ensures REQUEST_LEN * (|t.peers[p].requests| - |s.peers[p].requests|) <= REQUEST_LEN * Max(0, u.limit)
  {
  }

  // ---- Taking over comes to an end -----------------------------------------------------------------

  /** Connection p takes chunk r from the connection that holds it, which is not a silent one. */
  ghost predicate TakesOver(s: Swarm, t: Swarm, p: PeerId, r: RequestIndex, ready: set<RequestIndex>, limit: int, now: int) {
    && MayRequest(s, p, r, ready) && |s.peers[p].requests| < limit
    && HeldElsewhere(s, p, r) && WouldSteal(s, p, r, now) && !HolderSilent(s, r, now)
    && Obtain(s, p, r, ready, limit, now) == Running(t)
  }

  ghost predicate Takeover(s: Swarm, t: Swarm) {
    exists p, r, ready, limit, now :: TakesOver(s, t, p, r, ready, limit, now)
  }

  // The connections in some order, each once.
  ghost predicate Lists(ids: seq<PeerId>, s: Swarm) {
    && (forall p :: p in ids <==> p in s.peers)
    && forall i, j :: 0 <= i < j < |ids| ==> ids[i] != ids[j]
  }

  function QueueAt(s: Swarm, p: PeerId): Stealing.Peer {
    if p in s.peers then QueueOf(s.peers[p]) else Stealing.Peer(0, 0.0, 0)
  }

  function Queues(s: Swarm, ids: seq<PeerId>): Stealing.Peers {
    seq(|ids|, i requires 0 <= i < |ids| => QueueAt(s, ids[i]))
  }

  lemma Grown(a: set<RequestIndex>, r: RequestIndex)
    ensures |a + {r}| == |a| + if r in a then 0 else 1
    ensures r in a ==> |a - {r}| == |a| - 1
  {
    if r in a {
      assert a + {r} == a;
    }
  }

  // What a takeover does to every connection's queue.
  lemma TakeoverQueues(s: Swarm, t: Swarm, p: PeerId, r: RequestIndex, ready: set<RequestIndex>, limit: int, now: int)
    requires Consistent(s) && TakesOver(s, t, p, r, ready, limit, now)
    ensures Consistent(t) && t.peers.Keys == s.peers.Keys
    ensures QueueOf(t.peers[p]) == Stealing.Gain(QueueOf(s.peers[p]))
    ensures var holder := s.owner[r].peer;
            QueueOf(s.peers[holder]).n > 0
            && QueueOf(t.peers[holder]) == Stealing.Lose(QueueOf(s.peers[holder]))
    ensures forall q <- s.peers :: q != p && q != s.owner[r].peer ==> t.peers[q] == s.peers[q]
  {
    ObtainSafe(s, p, r, ready, limit, now);
    CancelRequestSafe(s, r);
    var holder := s.owner[r].peer;
    assert At(s, p, r) && At(s, holder, r);
    CancelKeepsOthers(s, p, r);
    Grown(s.peers[p].requests, r);
    Grown(s.peers[holder].requests, r);
    assert t.peers[holder] == CancelIn(s.peers[holder], {r});
    forall q | q in s.peers && q != p && q != holder ensures t.peers[q] == s.peers[q] {
      assert At(s, q, r);
      CancelKeepsOthers(s, q, r);
    }
  }

  /** A takeover in the swarm is a step of `Stealing` on the connections' queues. */
  lemma TakeoverIsStep(s: Swarm, t: Swarm, ids: seq<PeerId>)
    requires Consistent(s) && Takeover(s, t) && Lists(ids, s)
    ensures Consistent(t) && Lists(ids, t)
    ensures Stealing.Step(Queues(s, ids), Queues(t, ids))
  {
    var p, r, ready, limit, now :| TakesOver(s, t, p, r, ready, limit, now);
    TakeoverQueues(s, t, p, r, ready, limit, now);
    var holder := s.owner[r].peer;
    var i: nat :| i < |ids| && ids[i] == p;
    var j: nat :| j < |ids| && ids[j] == holder;
    assert Stealing.Steals(QueueAt(s, p), QueueAt(s, holder), false);
    QueuesStep(s, t, ids, i, j);
  }

  lemma QueuesStep(s: Swarm, t: Swarm, ids: seq<PeerId>, i: nat, j: nat)
    requires i < |ids| && j < |ids| && ids[i] != ids[j] && QueueAt(s, ids[j]).n > 0
    requires forall a, b :: 0 <= a < b < |ids| ==> ids[a] != ids[b]
    requires Stealing.Steals(QueueAt(s, ids[i]), QueueAt(s, ids[j]), false)
    requires QueueAt(t, ids[i]) == Stealing.Gain(QueueAt(s, ids[i]))
    requires QueueAt(t, ids[j]) == Stealing.Lose(QueueAt(s, ids[j]))
    requires forall q <- ids :: q != ids[i] && q != ids[j] ==> QueueAt(t, q) == QueueAt(s, q)
    ensures Stealing.Step(Queues(s, ids), Queues(t, ids))
  {
    var a, b := Queues(s, ids), Queues(t, ids);
    assert b == a[i := Stealing.Gain(a[i])][j := Stealing.Lose(a[j])];
    assert Stealing.StepAt(a, b, i, j);
  }

  lemma {:induction false} Enumerate(peers: set<PeerId>) returns (ids: seq<PeerId>)
    ensures forall p :: p in ids <==> p in peers
    ensures forall i, j :: 0 <= i < j < |ids| ==> ids[i] != ids[j]
  {
    if peers == {} {
      ids := [];
    } else {
      var p :| p in peers;
      var rest := Enumerate(peers - {p});
      ids := [p] + rest;
    }
  }

  lemma {:induction false} StillListed(run: nat -> Swarm, ids: seq<PeerId>, n: nat)
    requires Consistent(run(0)) && Lists(ids, run(0))
    requires forall k: nat :: k < n ==> Takeover(run(k), run(k + 1))
    ensures Consistent(run(n)) && Lists(ids, run(n))
  {
    if n > 0 {
      StillListed(run, ids, n - 1);
      TakeoverIsStep(run(n - 1), run(n), ids);
    }
  }

  lemma NoEndlessTakeovers(run: nat -> Swarm, ids: seq<PeerId>)
    requires forall n: nat :: Consistent(run(n)) && Lists(ids, run(n))
    ensures exists n: nat :: !Takeover(run(n), run(n + 1))
  {
    var queues := (n: nat) => Queues(run(n), ids);
    Stealing.StealingTerminates(queues);
    var n: nat :| !Stealing.Step(queues(n), queues(n + 1));
    assert queues(n) == Queues(run(n), ids) && queues(n + 1) == Queues(run(n + 1), ids);
    if Takeover(run(n), run(n + 1)) {
      TakeoverIsStep(run(n), run(n + 1), ids);
    }
  }

  /** Taking over terminates: with rates and last deliveries as they are, no swarm can go on for ever
      moving chunks between connections that are not silent. */
  lemma TakeoversEnd(run: nat -> Swarm)
    requires Consistent(run(0))
    ensures exists n: nat :: !Takeover(run(n), run(n + 1))
  {
    if forall n: nat :: Takeover(run(n), run(n + 1)) {
      var ids := Enumerate(run(0).peers.Keys);
      forall n: nat ensures Consistent(run(n)) && Lists(ids, run(n)) {
        StillListed(run, ids, n);
      }
      NoEndlessTakeovers(run, ids);
    }
  }

  // ---- The torrent -------------------------------------------------------------------------------

  class Torrent {
    var conns: set<PeerId>
    var peers: map<PeerId, Conn>
    var requestState: map<RequestIndex, Claim>

    function View(): Swarm
      reads this
    {
      Swarm(conns, peers, requestState)
    }

    ghost predicate Valid()
      reads this
    {
      Consistent(View())
    }

    constructor ()
      ensures Valid() && View() == Empty
    {
      conns, peers, requestState := {}, map[], map[];
    }

    method DeleteRequest(p: PeerId, r: RequestIndex) returns (removed: bool)
      requires Valid() && p in peers
      modifies this
      ensures Valid() && Running(View()) == R.DeleteRequest(old(View()), p, r)
      ensures removed == (r in old(peers)[p].requests)
    {
      DeleteRequestSafe(View(), p, r);
      assert At(View(), p, r);
      var c := peers[p];
      if r !in c.requests {
        return false;
      }
      peers := peers[p := c.(requests := c.requests - {r})];
      assert r in requestState && requestState[r].peer == p;
      requestState := requestState - {r};
      removed := true;
    }

    method Cancel(p: PeerId, r: RequestIndex)
      requires Valid() && p in peers && r in peers[p].requests
      modifies this
      ensures Valid() && View() == CancelSet(old(View()), {r})
    {
      ghost var before := View();
      CancelSetAtOwner(before, p, r);
      CancelSetSafe(before, {r});
      assert At(before, p, r);
      var removed := DeleteRequest(p, r);
      assert removed;
      var c := peers[p];
      if c.rejectsCancels {
        assert r !in c.cancelled;
        peers := peers[p := c.(cancelled := c.cancelled + {r})];
      }
      assert Running(View()) == CancelAt(before, p, r);
    }

    method CancelRequest(r: RequestIndex)
      requires Valid()
      modifies this
      ensures Valid() && View() == CancelSet(old(View()), {r})
      ensures r !in requestState
    {
      CancelRequestSafe(View(), r);
      if r in requestState {
        assert At(View(), requestState[r].peer, r);
        Cancel(requestState[r].peer, r);
      }
    }

    method Request(p: PeerId, r: RequestIndex, ready: set<RequestIndex>, limit: int, now: int)
      requires Valid() && MayRequest(View(), p, r, ready) && |peers[p].requests| < limit
      requires r in requestState ==> requestState[r].peer == p
      modifies this
      ensures Valid() && Running(View()) == R.Request(old(View()), p, r, ready, limit, now)
    {
      RequestSafe(View(), p, r, ready, limit, now);
      var c := peers[p];
      if r in c.requests {
        return;
      }
      peers := peers[p := c.(requests := c.requests + {r}, expected := c.expected[r := Count(c, r) + 1])];
      requestState := requestState[r := Claim(p, now)];
    }

    method DecExpectedChunkReceive(p: PeerId, r: RequestIndex)
      requires p in peers && Count(peers[p], r) >= 1
      modifies this`peers
      ensures peers == old(peers)[p := DecExpected(old(peers)[p], r)]
    {
      var c := peers[p];
      if c.expected[r] == 1 {
        peers := peers[p := c.(expected := c.expected - {r})];
      } else {
        peers := peers[p := c.(expected := c.expected[r := c.expected[r] - 1])];
      }
    }

    method RemoteRejectedRequest(p: PeerId, r: RequestIndex) returns (valid: bool)
      requires Valid() && p in peers
      modifies this
      ensures Valid() && Running(View()) == RemoteRejected(old(View()), p, r)
      ensures valid == (r in old(peers)[p].requests || r in old(peers)[p].cancelled)
    {
      ghost var before := View();
      RemoteRejectedSafe(before, p, r);
      assert At(before, p, r);
      var removed := DeleteRequest(p, r);
      if !removed {
        var c := peers[p];
        if r !in c.cancelled {
          return false;
        }
        peers := peers[p := c.(cancelled := c.cancelled - {r})];
      }
      DecExpectedChunkReceive(p, r);
      valid := true;
      assert Running(View()) == RemoteRejected(before, p, r);
    }

    method CheckReceivedChunk(p: PeerId, r: RequestIndex) returns (plausible: bool, intended: bool)
      requires Valid() && p in peers
      modifies this
      ensures Valid() && Running(View()) == CheckReceived(old(View()), p, r)
      ensures plausible == (Count(old(peers)[p], r) > 0)
      ensures plausible ==> intended == (r in old(peers)[p].requests || r in old(peers)[p].cancelled)
    {
      CheckReceivedSafe(View(), p, r);
      assert At(View(), p, r);
      if Count(peers[p], r) <= 0 {
        return false, false;
      }
      plausible := true;
      intended := r in peers[p].requests || r in peers[p].cancelled;
      DecExpectedChunkReceive(p, r);
      var c := peers[p];
      if r in c.requests {
        peers := peers[p := c.(requests := c.requests - {r})];
        assert r in requestState && requestState[r].peer == p;
        requestState := requestState - {r};
      } else {
        peers := peers[p := c.(cancelled := c.cancelled - {r})];
      }
    }

    /** The part of receiving a chunk that runs before the data is written out. */
    method ReceiveChunk(p: PeerId, r: RequestIndex, wanted: bool) returns (plausible: bool)
      requires Valid() && p in peers
      modifies this
      ensures Valid() && Running(View()) == R.ReceiveChunk(old(View()), p, r, wanted)
      ensures plausible == (Count(old(peers)[p], r) > 0)
      ensures plausible && wanted ==> r !in requestState
    {
      ReceiveChunkSafe(View(), p, r, wanted);
      CheckReceivedSafe(View(), p, r);
      var intended;
      plausible, intended := CheckReceivedChunk(p, r);
      if plausible && wanted && r in requestState {
        assert At(View(), requestState[r].peer, r);
        assert requestState[r].peer != p;
        CancelSetAtOwner(View(), requestState[r].peer, r);
        Cancel(requestState[r].peer, r);
      }
    }

    method DeleteAllRequests(p: PeerId)
      requires Valid() && p in peers
      modifies this
      ensures Valid() && View() == R.DeleteAllRequests(old(View()), p)
    {
      ghost var before := View();
      var snapshot := peers[p].requests;
      var todo := snapshot;
      assert snapshot - snapshot == {};
      assert before.owner - {} == before.owner;
      assert snapshot - {} == snapshot;
      assert peers == peers[p := peers[p]];
      while todo != {}
        invariant todo <= snapshot == before.peers[p].requests && before.peers.Keys == peers.Keys
        invariant Valid() && View() == DeleteSome(before, p, snapshot - todo)
      {
        var r :| r in todo;
        var existed := DeleteRequest(p, r);
        assert existed;
        assert snapshot - (todo - {r}) == (snapshot - todo) + {r};
        assert snapshot - (snapshot - todo) - {r} == snapshot - (snapshot - (todo - {r}));
        todo := todo - {r};
        assert requestState == before.owner - (snapshot - todo);
      }
      assert snapshot - snapshot == {};
    }

    method CancelAllRequests(p: PeerId)
      requires Valid() && p in peers
      modifies this
      ensures Valid() && View() == CancelSet(old(View()), old(peers)[p].requests)
      ensures p in peers && peers[p].requests == {}
    {
      ghost var before := View();
      var snapshot := peers[p].requests;
      var todo := snapshot;
      CancelSetEmpty(before);
      assert snapshot - snapshot == {};
      while todo != {}
        invariant todo <= snapshot == before.peers[p].requests
        invariant Valid() && View() == CancelSet(before, snapshot - todo)
      {
        var r :| r in todo;
        CancelSetStep(before, snapshot - todo, r);
        assert snapshot - (todo - {r}) == (snapshot - todo) + {r};
        Cancel(p, r);
        todo := todo - {r};
      }
      assert snapshot - {} == snapshot;
    }

    method CancelRequestsForPiece(start: RequestIndex, end: RequestIndex)
      requires Valid() && start <= end
      modifies this
      ensures Valid() && View() == CancelSet(old(View()), ChunkRange(start, end))
    {
      ghost var before := View();
      CancelSetEmpty(before);
      for r := start to end
        invariant Valid() && View() == CancelSet(before, ChunkRange(start, r))
      {
        CancelSetStep(before, ChunkRange(start, r), r);
        CancelRequest(r);
      }
    }

    method DeletePeerConn(p: PeerId)
      requires Valid() && p in peers && peers[p].closed
      modifies this
      ensures Valid() && Running(View()) == Next(old(View()), Drop(p))
      ensures p !in conns
    {
      ghost var before := View();
      DropSafe(before, p);
      DeleteAllRequests(p);
      conns := conns - {p};
      if conns == {} {
        NothingOwned(View());
        assert |requestState| == 0;
      }
    }

    /** Actions a plan for connection p: `desired` are the chunks planning found requestable,
        `limit` is the connection's nominal maximum, `buffered` what its write buffer already holds.
        The heap's order plays no part in what is promised, so any element may come next. */
    method ApplyRequestState(p: PeerId, desired: set<RequestIndex>, u: Terms, tellInterest: bool, buffered: nat)
      returns (buffered': nat, ghost plan: seq<RequestIndex>)
      requires Valid() && p in peers
      requires forall r <- desired :: MayRequest(View(), p, r, u.ready)
      requires 1 <= u.limit <= MAX_LOCAL_TO_REMOTE && buffered <= LOW_WATER
      modifies this
      ensures Valid() && Steady(old(View()), View(), p)
      ensures (forall r <- plan :: r in desired) && Running(View()) == Apply(old(View()), p, plan, u)
      ensures peers[p].requests <= old(peers)[p].requests + desired
      ensures |peers[p].requests| + |peers[p].cancelled|
              <= Max(|old(peers)[p].requests| + |old(peers)[p].cancelled|, u.limit)
      // The buffer never fills, so every chosen request was committed.
      ensures buffered' < HIGH_WATER
      // With room left, no requestable chunk is left without an owner.
      ensures u.reason != RemoteReject && |peers[p].requests| + |peers[p].cancelled| < u.limit
              ==> desired <= requestState.Keys
      ensures u.reason == RemoteReject ==> View() == old(View())
      ensures u.reason == PeerCancelled ==> forall q <- peers :: q != p ==> peers[q] == old(peers)[q]
    {
      ghost var before := View();
      buffered' := buffered + if tellInterest then INTERESTED_LEN else 0;
      ghost var left: set<RequestIndex>;
      buffered', plan, left := Work(p, desired, u, buffered');
      AppliedAll(before, View(), p, plan, u);
      InTermsOfDesired(before, View(), p, desired, left, plan, u);
    }

    method Work(p: PeerId, desired: set<RequestIndex>, u: Terms, buffered: nat)
      returns (buffered': nat, ghost plan: seq<RequestIndex>, ghost left: set<RequestIndex>)
      requires Valid() && p in peers
      requires forall r <- desired :: MayRequest(View(), p, r, u.ready)
      modifies this
      ensures Valid() && p in peers
      ensures Planned(old(View()), p, plan, u.ready) && Running(View()) == Apply(old(View()), p, plan, u)
      ensures forall r :: r in desired <==> r in left || r in plan
      ensures left == {} || !HasRoom(View(), p, u.limit)
      ensures buffered' + REQUEST_LEN * |old(peers)[p].requests| == buffered + REQUEST_LEN * |peers[p].requests|
    {
      ghost var before := View();
      buffered' := buffered;
      var heap := desired;
      plan := [];
      while heap != {} && HasRoom(View(), p, u.limit)
        invariant heap <= desired && p in peers && Valid()
        invariant forall r :: r in desired <==> r in heap || r in plan
        invariant Planned(before, p, plan, u.ready) && Running(View()) == Apply(before, p, plan, u)
        invariant buffered' + REQUEST_LEN * |before.peers[p].requests| == buffered + REQUEST_LEN * |peers[p].requests|
        decreases heap
      {
        var r :| r in heap;
        heap := heap - {r};
        NextRound(before, View(), p, plan, r, u);
        plan := plan + [r];
        buffered' := Consider(p, r, u, buffered');
      }
      left := heap;
    }

    /** One round of the loop: the chunk is passed over or taken. */
    method Consider(p: PeerId, r: RequestIndex, u: Terms, buffered: nat)
      returns (buffered': nat)
      requires Valid() && MayRequest(View(), p, r, u.ready) && HasRoom(View(), p, u.limit)
      modifies this
      ensures Valid() && p in peers && Running(View()) == Round(old(View()), p, r, u)
      ensures buffered' + REQUEST_LEN * |old(peers)[p].requests| == buffered + REQUEST_LEN * |peers[p].requests|
    {
      buffered' := buffered;
      assert At(View(), p, r);
      if u.reason == RemoteReject {
        return;
      }
      if r in requestState && requestState[r].peer != p {
        assert At(View(), requestState[r].peer, r);
        if u.reason == PeerCancelled || !WouldSteal(View(), p, r, u.now) {
          return;
        }
      }
      ghost var before := View();
      ObtainSteady(before, p, r, u.ready, u.limit, u.now);
      Grown(before.peers[p].requests, r);
      buffered' := TakeOver(p, r, u.ready, u.limit, u.now, buffered);
    }

    method TakeOver(p: PeerId, r: RequestIndex, ready: set<RequestIndex>, limit: int, now: int, buffered: nat) returns (buffered': nat)
      requires Valid() && MayRequest(View(), p, r, ready) && |peers[p].requests| < limit
      modifies this
      ensures Valid() && Running(View()) == Obtain(old(View()), p, r, ready, limit, now)
      ensures buffered' == buffered + if r in old(peers)[p].requests then 0 else REQUEST_LEN
    {
      ghost var before := View();
      ObtainSafe(before, p, r, ready, limit, now);
      assert At(before, p, r);
      buffered' := buffered + if r in peers[p].requests then 0 else REQUEST_LEN;
      if r in requestState && requestState[r].peer != p {
        CancelRequestSafe(before, r);
        CancelInNothing(before.peers[p], r);
        CancelRequest(r);
      }
      Request(p, r, ready, limit, now);
    }
  }

  lemma CancelSetEmpty(s: Swarm)
    ensures CancelSet(s, {}) == s
  {
    forall p | p in s.peers ensures CancelIn(s.peers[p], {}) == s.peers[p] {
      var c := s.peers[p];
      assert c.requests - {} == c.requests;
      assert c.cancelled + c.requests * {} == c.cancelled;
    }
    assert CancelSet(s, {}).peers == s.peers;
    assert s.owner - {} == s.owner;
  }
}
