/**
 * When one connection may take a chunk another has outstanding, and why that cannot go on for ever.
 *
 * With rates and last deliveries fixed, every steal that is not about a silent peer lowers a
 * lexicographic measure: requests held by unmeasured peers first, then their spread, then how stale
 * their holders are, and last the queueing load of the measured peers.
 */
module Stealing {

  const REQUEST_QUEUE_TIME := 2_000_000_000

  datatype Peer = Peer(n: nat, rate: real, last: int)

  // The holder has delivered nothing useful since this request went out, too long ago.
  predicate Silent(sent: int, now: int, holderLast: int) {
    sent != 0 && now - sent >= REQUEST_QUEUE_TIME && !(holderLast > sent)
  }

  predicate Poor(thief: Peer, holder: Peer) {
    var diff := thief.n + 1 - (holder.n - 1);
    diff > 1 || (diff == 1 && !(thief.last > holder.last))
  }

  predicate Steals(thief: Peer, holder: Peer, silent: bool) {
    if silent then true
    else if holder.rate <= 0.0 then !Poor(thief, holder)
    else if thief.rate <= 0.0 then false
    else 2.0 * ((thief.n + 1) as real / thief.rate) < holder.n as real / holder.rate
  }

  /** The rules in plain numbers. A holder that has been silent for two seconds loses the chunk to
      anyone. Otherwise one with no measured rate loses it to a peer that ends up with fewer requests
      than it had, or as many while having delivered later; and a measured one to a measured peer that
      would work off its whole queue, the chunk included, in less than half the holder's time. */
  predicate LosesTo(holder: Peer, thief: Peer, sent: int, now: int) {
    || (sent != 0 && now >= sent + 2_000_000_000 && holder.last <= sent)
    || (holder.rate <= 0.0 && (thief.n + 1 < holder.n || (thief.n + 1 == holder.n && thief.last > holder.last)))
    || (holder.rate > 0.0 && thief.rate > 0.0
        && 2.0 * (thief.n + 1) as real * holder.rate < holder.n as real * thief.rate)
  }

  lemma StealsWhen(thief: Peer, holder: Peer, sent: int, now: int)
    ensures Steals(thief, holder, Silent(sent, now, holder.last)) <==> LosesTo(holder, thief, sent, now)
  {
    if holder.rate > 0.0 && thief.rate > 0.0 {
      CrossMultiply((thief.n + 1) as real, thief.rate, holder.n as real, holder.rate);
    }
  }

  lemma CrossMultiply(a: real, b: real, c: real, d: real)
    requires b > 0.0 && d > 0.0
    ensures 2.0 * (a / b) < c / d <==> 2.0 * a * d < c * b
  {
    var x, y := a / b, c / d;
    assert x * b == a && y * d == c;
    assert (2.0 * x) * (b * d) == 2.0 * a * d && y * (b * d) == c * b;
    assert b * d > 0.0;
    if 2.0 * x < y {
      assert (y - 2.0 * x) * (b * d) > 0.0;
    } else {
      assert (2.0 * x - y) * (b * d) >= 0.0;
    }
  }

  function Gain(p: Peer): Peer { p.(n := p.n + 1) }
  function Lose(p: Peer): Peer requires p.n > 0 { p.(n := p.n - 1) }

  /** A steal is never immediately reversed: the loser cannot take the chunk straight back. */
  lemma NotReversed(thief: Peer, holder: Peer)
    requires holder.n > 0 && Steals(thief, holder, false)
    ensures !Steals(Lose(holder), Gain(thief), false)
  {
    if holder.rate > 0.0 && thief.rate > 0.0 {
      var a, b := (thief.n + 1) as real / thief.rate, holder.n as real / holder.rate;
      assert b >= 0.0;
    }
  }

  // ---- Sums over the peers ------------------------------------------------------------------------

  type Peers = seq<Peer>

  function Sum(f: Peer -> int, s: Peers): int {
    if s == [] then 0 else f(s[0]) + Sum(f, s[1..])
  }

  function RealSum(f: Peer -> real, s: Peers): real {
    if s == [] then 0.0 else f(s[0]) + RealSum(f, s[1..])
  }

  lemma {:induction false} SumUpdate(f: Peer -> int, s: Peers, i: nat, p: Peer)
    requires i < |s|
    ensures Sum(f, s[i := p]) == Sum(f, s) - f(s[i]) + f(p)
  {
    if i > 0 {
      SumUpdate(f, s[1..], i - 1, p);
      assert s[i := p][1..] == s[1..][i - 1 := p];
    } else {
      assert s[i := p][1..] == s[1..];
    }
  }

  lemma {:induction false} RealSumUpdate(f: Peer -> real, s: Peers, i: nat, p: Peer)
    requires i < |s|
    ensures RealSum(f, s[i := p]) == RealSum(f, s) - f(s[i]) + f(p)
  {
    if i > 0 {
      RealSumUpdate(f, s[1..], i - 1, p);
      assert s[i := p][1..] == s[1..][i - 1 := p];
    } else {
      assert s[i := p][1..] == s[1..];
    }
  }

  lemma {:induction false} SumNonNegative(f: Peer -> int, s: Peers)
    requires forall i :: 0 <= i < |s| ==> f(s[i]) >= 0
    ensures Sum(f, s) >= 0
  {
    if s != [] {
      assert forall i :: 0 <= i < |s[1..]| ==> s[1..][i] == s[i + 1];
      SumNonNegative(f, s[1..]);
    }
  }

  lemma {:induction false} RealSumNonNegative(f: Peer -> real, s: Peers)
    requires forall i :: 0 <= i < |s| ==> f(s[i]) >= 0.0
    ensures RealSum(f, s) >= 0.0
  {
    if s != [] {
      assert forall i :: 0 <= i < |s[1..]| ==> s[1..][i] == s[i + 1];
      RealSumNonNegative(f, s[1..]);
    }
  }

  // ---- The measure --------------------------------------------------------------------------------

  predicate Unmeasured(p: Peer) { p.rate <= 0.0 }

  function Held(p: Peer): int { if Unmeasured(p) then p.n else 0 }
  function Spread(p: Peer): int { if Unmeasured(p) then p.n * p.n else 0 }
  function Staleness(latest: int, p: Peer): int { if Unmeasured(p) then p.n * (latest - p.last) else 0 }
  function Triangle(n: real): real { n * (n + 1.0) / 2.0 }
  // The time a measured peer needs for its queue, summed over its requests.
  function Load(p: Peer): real {
    if Unmeasured(p) then 0.0 else Triangle(p.n as real) / p.rate
  }

  // `latest` bounds every last delivery and `top` every rate.
  ghost predicate Bounded(s: Peers, latest: int, top: real) {
    top > 0.0 && forall i :: 0 <= i < |s| ==> s[i].last <= latest && s[i].rate <= top
  }

  function TotalHeld(s: Peers): int { Sum(Held, s) }
  function TotalSpread(s: Peers): int { Sum(Spread, s) }
  function TotalStaleness(s: Peers, latest: int): int { Sum(p => Staleness(latest, p), s) }
  function TotalLoad(s: Peers): real { RealSum(Load, s) }
  function LoadSteps(s: Peers, top: real): int { (TotalLoad(s) * top).Floor }

  ghost predicate Step(s: Peers, t: Peers) {
    exists i: nat, j: nat {:trigger StepAt(s, t, i, j)} :: StepAt(s, t, i, j)
  }

  /** Peer i takes one request from peer j under the rules that do not depend on silence. */
  ghost predicate StepAt(s: Peers, t: Peers, i: nat, j: nat) {
    && i < |s| && j < |s| && i != j && s[j].n > 0
    && Steals(s[i], s[j], false)
    && t == s[i := Gain(s[i])][j := Lose(s[j])]
  }

  lemma MeasureNonNegative(s: Peers, latest: int, top: real)
    requires Bounded(s, latest, top)
    ensures TotalHeld(s) >= 0 && TotalSpread(s) >= 0
    ensures TotalStaleness(s, latest) >= 0 && LoadSteps(s, top) >= 0
  {
    SumNonNegative(Held, s);
    SumNonNegative(Spread, s);
    forall i | 0 <= i < |s| ensures Staleness(latest, s[i]) >= 0 {
      ProductNonNegative(s[i].n, latest - s[i].last);
    }
    SumNonNegative(p => Staleness(latest, p), s);
    RealSumNonNegative(Load, s);
    assert TotalLoad(s) * top >= 0.0;
  }

  lemma ProductNonNegative(a: int, b: int)
    requires a >= 0 && b >= 0
    ensures a * b >= 0
  {
  }

  lemma StepKeepsBounds(s: Peers, t: Peers, i: nat, j: nat, latest: int, top: real)
    requires StepAt(s, t, i, j) && Bounded(s, latest, top)
    ensures Bounded(t, latest, top)
  {
  }

  lemma StepSums(s: Peers, t: Peers, i: nat, j: nat, latest: int)
    requires StepAt(s, t, i, j)
    ensures TotalHeld(t) == TotalHeld(s) + (Held(Gain(s[i])) - Held(s[i])) + (Held(Lose(s[j])) - Held(s[j]))
    ensures TotalSpread(t) == TotalSpread(s) + (Spread(Gain(s[i])) - Spread(s[i])) + (Spread(Lose(s[j])) - Spread(s[j]))
    ensures TotalStaleness(t, latest) == TotalStaleness(s, latest)
              + (Staleness(latest, Gain(s[i])) - Staleness(latest, s[i]))
              + (Staleness(latest, Lose(s[j])) - Staleness(latest, s[j]))
    ensures TotalLoad(t) == TotalLoad(s) + (Load(Gain(s[i])) - Load(s[i])) + (Load(Lose(s[j])) - Load(s[j]))
  {
    var m := s[i := Gain(s[i])];
    assert m[j] == s[j];
    SumUpdate(Held, s, i, Gain(s[i])); SumUpdate(Held, m, j, Lose(s[j]));
    SumUpdate(Spread, s, i, Gain(s[i])); SumUpdate(Spread, m, j, Lose(s[j]));
    var g := p => Staleness(latest, p);
    SumUpdate(g, s, i, Gain(s[i])); SumUpdate(g, m, j, Lose(s[j]));
    RealSumUpdate(Load, s, i, Gain(s[i])); RealSumUpdate(Load, m, j, Lose(s[j]));
  }

  lemma LoadGain(p: Peer)
    requires p.rate > 0.0
    ensures Load(Gain(p)) - Load(p) == (p.n + 1) as real / p.rate
  {
    var n := p.n as real;
    assert Triangle(n + 1.0) - Triangle(n) == n + 1.0 by {
      assert (n + 1.0) * (n + 2.0) - n * (n + 1.0) == 2.0 * (n + 1.0);
    }
    DivideDifference(Triangle(n + 1.0), Triangle(n), p.rate);
  }

  lemma DivideDifference(a: real, b: real, rate: real)
    requires rate > 0.0
    ensures a / rate - b / rate == (a - b) / rate
  {
  }

  lemma RateRuleOnPair(thief: Peer, holder: Peer, top: real)
    requires thief.rate > 0.0 && holder.rate > 0.0 && holder.n > 0 && thief.rate <= top
    requires Steals(thief, holder, false)
    ensures (Load(Gain(thief)) - Load(thief)) + (Load(Lose(holder)) - Load(holder)) + 1.0 / top < 0.0
  {
    LoadGain(thief);
    LoadGain(Lose(holder));
    assert Gain(Lose(holder)) == holder;
    AtLeastOneRequest(thief.n, thief.rate, top);
  }

  lemma LoadChange(s: Peers, t: Peers, i: nat, j: nat, top: real) returns (change: real)
    requires StepAt(s, t, i, j) && s[i].rate <= top && s[i].rate > 0.0 && s[j].rate > 0.0
    ensures TotalLoad(t) == TotalLoad(s) + change && change + 1.0 / top < 0.0
  {
    change := (Load(Gain(s[i])) - Load(s[i])) + (Load(Lose(s[j])) - Load(s[j]));
    StepSums(s, t, i, j, 0);
    RateRuleOnPair(s[i], s[j], top);
  }

  lemma FewerSteps(s: Peers, t: Peers, change: real, top: real)
    requires top > 0.0 && TotalLoad(t) == TotalLoad(s) + change && change + 1.0 / top < 0.0
    ensures TotalLoad(t) + 1.0 / top < TotalLoad(s) && LoadSteps(t, top) < LoadSteps(s, top)
  {
    ScaleStep(TotalLoad(t), TotalLoad(s), top);
  }

  /** The rate rule lowers the load by more than the time the fastest peer needs for one request. */
  lemma RateRuleLowersLoad(s: Peers, t: Peers, i: nat, j: nat, latest: int, top: real)
    requires StepAt(s, t, i, j) && Bounded(s, latest, top)
    requires s[i].rate > 0.0 && s[j].rate > 0.0
    ensures TotalLoad(t) + 1.0 / top < TotalLoad(s)
    ensures LoadSteps(t, top) < LoadSteps(s, top)
  {
    var change := LoadChange(s, t, i, j, top);
    FewerSteps(s, t, change, top);
  }

  lemma AtLeastOneRequest(n: nat, rate: real, top: real)
    requires 0.0 < rate <= top
    ensures (n + 1) as real / rate >= 1.0 / top
  {
    assert (n + 1) as real / rate >= 1.0 / rate;
    assert 1.0 / rate >= 1.0 / top;
  }

  lemma ScaleStep(low: real, high: real, top: real)
    requires top > 0.0 && low + 1.0 / top < high
    ensures (low * top).Floor < (high * top).Floor
  {
    var step := 1.0 / top;
    assert step * top == 1.0;
    assert (low + step) * top == low * top + step * top;
    assert (low + step) * top < high * top;
  }

  ghost predicate Below(t: Peers, s: Peers, latest: int, top: real) {
    || TotalHeld(t) < TotalHeld(s)
    || (TotalHeld(t) == TotalHeld(s)
        && (|| TotalSpread(t) < TotalSpread(s)
            || (TotalSpread(t) == TotalSpread(s)
                && (|| TotalStaleness(t, latest) < TotalStaleness(s, latest)
                    || (TotalStaleness(t, latest) == TotalStaleness(s, latest)
                        && LoadSteps(t, top) < LoadSteps(s, top))))))
  }

  // Between unmeasured peers a steal evens the counts out, or swaps them towards the fresher one.
  lemma EvensOut(thief: Peer, holder: Peer, latest: int)
    requires Unmeasured(thief) && Unmeasured(holder) && holder.n > 0 && !Poor(thief, holder)
    ensures var spread := (Spread(Gain(thief)) - Spread(thief)) + (Spread(Lose(holder)) - Spread(holder));
            var stale := (Staleness(latest, Gain(thief)) - Staleness(latest, thief))
                         + (Staleness(latest, Lose(holder)) - Staleness(latest, holder));
            spread < 0 || (spread == 0 && stale < 0)
  {
    var a: int, b: int := thief.n, holder.n;
    assert (a + 1) * (a + 1) - a * a == 2 * a + 1;
    assert (b - 1) * (b - 1) - b * b == 1 - 2 * b;
    Distribute(a, latest - thief.last);
    Distribute(b - 1, latest - holder.last);
  }

  lemma Distribute(n: int, k: int)
    ensures (n + 1) * k == n * k + k
  {
  }

  lemma UnmeasuredHolder(s: Peers, t: Peers, i: nat, j: nat, latest: int, top: real)
    requires StepAt(s, t, i, j) && Unmeasured(s[j])
    ensures Below(t, s, latest, top)
  {
    StepSums(s, t, i, j, latest);
    if Unmeasured(s[i]) {
      EvensOut(s[i], s[j], latest);
    }
  }

  /** Every steal lowers the measure. */
  lemma StepLowers(s: Peers, t: Peers, i: nat, j: nat, latest: int, top: real)
    requires StepAt(s, t, i, j) && Bounded(s, latest, top)
    ensures Below(t, s, latest, top)
  {
    if Unmeasured(s[j]) {
      UnmeasuredHolder(s, t, i, j, latest, top);
    } else {
      RateRuleLowersLoad(s, t, i, j, latest, top);
      StepSums(s, t, i, j, latest);
    }
  }

  lemma {:induction false} BoundsExist(s: Peers) returns (latest: int, top: real)
    ensures Bounded(s, latest, top)
  {
    if s == [] {
      latest, top := 0, 1.0;
    } else {
      latest, top := BoundsExist(s[1..]);
      latest := if s[0].last > latest then s[0].last else latest;
      top := if s[0].rate > top then s[0].rate else top;
      forall i | 0 <= i < |s| ensures s[i].last <= latest && s[i].rate <= top {
        assert i > 0 ==> s[i] == s[1..][i - 1];
      }
    }
  }

  lemma {:induction false} FindsEnd(run: nat -> Peers, k: nat, latest: int, top: real) returns (n: nat)
    requires Bounded(run(k), latest, top)
    ensures n >= k && !Step(run(n), run(n + 1))
    decreases (MeasureNonNegative(run(k), latest, top); TotalHeld(run(k))), TotalSpread(run(k)),
              TotalStaleness(run(k), latest), LoadSteps(run(k), top)
  {
    MeasureNonNegative(run(k), latest, top);
    if !Step(run(k), run(k + 1)) {
      n := k;
    } else {
      var i, j :| StepAt(run(k), run(k + 1), i, j);
      StepKeepsBounds(run(k), run(k + 1), i, j, latest, top);
      StepLowers(run(k), run(k + 1), i, j, latest, top);
      n := FindsEnd(run, k + 1, latest, top);
    }
  }

  /** Stealing terminates: no infinite sequence of peer states is all steals. */
  lemma StealingTerminates(run: nat -> Peers)
    ensures exists n: nat :: !Step(run(n), run(n + 1))
  {
    var latest, top := BoundsExist(run(0));
    var n := FindsEnd(run, 0, latest, top);
  }
}
