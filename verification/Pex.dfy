/**
 * Peer exchange (BEP 11). A torrent keeps a feed of connections made and lost; each peer has a cursor
 * into the feed and is sent the net change since, with events that undo each other left out.
 */
module Pex {

  datatype Addr = V4(n: nat) | V6(n: nat)
  type Flags = nat

  datatype Event = Event(add: bool, addr: Addr, flags: Flags)

  const TARGET_ADDED: int := 25
  const MAX_HOLD: nat := 25
  const MAX_DELTA: nat := 50

  // ---- Meaning of a feed -------------------------------------------------------------------------

  // Live after the first n events.
  function LiveAt(feed: seq<Event>, n: nat): set<Addr>
    requires n <= |feed|
  {
    if n == 0 then {}
    else if feed[n - 1].add then LiveAt(feed, n - 1) + {feed[n - 1].addr}
    else LiveAt(feed, n - 1) - {feed[n - 1].addr}
  }

  function Live(feed: seq<Event>): set<Addr> { LiveAt(feed, |feed|) }

  /** Addresses are only added when absent and dropped when present. */
  ghost predicate ValidFeed(feed: seq<Event>) {
    forall n: nat :: n < |feed| ==> FitsAt(feed, n)
  }

  predicate FitsAt(feed: seq<Event>, n: nat)
    requires n < |feed|
  {
    feed[n].add <==> feed[n].addr !in LiveAt(feed, n)
  }

  lemma {:induction false} LongerLive(feed: seq<Event>, longer: seq<Event>, n: nat)
    requires feed <= longer && n <= |feed|
    ensures LiveAt(longer, n) == LiveAt(feed, n)
  {
    if n > 0 {
      LongerLive(feed, longer, n - 1);
    }
  }

  lemma Append(feed: seq<Event>, e: Event)
    ensures Live(feed + [e]) == if e.add then Live(feed) + {e.addr} else Live(feed) - {e.addr}
    ensures ValidFeed(feed + [e]) <==> ValidFeed(feed) && (e.add <==> e.addr !in Live(feed))
  {
    var longer := feed + [e];
    forall n: nat | n <= |feed| ensures LiveAt(longer, n) == LiveAt(feed, n) {
      LongerLive(feed, longer, n);
    }
    forall n: nat | n < |feed| ensures FitsAt(longer, n) == FitsAt(feed, n) {
    }
    assert FitsAt(longer, |feed|) <==> (e.add <==> e.addr !in Live(feed));
    if ValidFeed(longer) {
      assert FitsAt(longer, |feed|);
      assert forall n: nat :: n < |feed| ==> FitsAt(longer, n);
    }
  }

  // ---- Net changes -------------------------------------------------------------------------------

  datatype Delta = Delta(added: map<Addr, Flags>, dropped: set<Addr>)

  const NONE := Delta(map[], {})

  function Step(d: Delta, e: Event): Delta {
    if e.add then
      if e.addr in d.added then d
      else if e.addr in d.dropped then d.(dropped := d.dropped - {e.addr})
      else d.(added := d.added[e.addr := e.flags])
    else
      if e.addr in d.dropped then d
      else if e.addr in d.added then d.(added := d.added - {e.addr})
      else d.(dropped := d.dropped + {e.addr})
  }

  // The net change of the events from one position to another.
  function Net(feed: seq<Event>, from: nat, n: nat): Delta
    requires from <= n <= |feed|
  {
    if n == from then NONE else Step(Net(feed, from, n - 1), feed[n - 1])
  }

  lemma {:induction false} LongerNet(feed: seq<Event>, longer: seq<Event>, from: nat, n: nat)
    requires feed <= longer && from <= n <= |feed|
    ensures Net(longer, from, n) == Net(feed, from, n)
    decreases n
  {
    if n > from {
      LongerNet(feed, longer, from, n - 1);
    }
  }

  function Apply(live: set<Addr>, d: Delta): set<Addr> { live - d.dropped + d.added.Keys }

  /** The net change of a stretch of a valid feed turns the live set before it into the live set after
      it, and never adds what is live or drops what is not. */
  lemma {:induction false} NetExact(feed: seq<Event>, from: nat, n: nat)
    requires ValidFeed(feed) && from <= n <= |feed|
    ensures Apply(LiveAt(feed, from), Net(feed, from, n)) == LiveAt(feed, n)
    ensures Net(feed, from, n).added.Keys !! LiveAt(feed, from) && Net(feed, from, n).dropped <= LiveAt(feed, from)
    ensures Net(feed, from, n).added.Keys !! Net(feed, from, n).dropped
    decreases n - from
  {
    if n > from {
      NetExact(feed, from, n - 1);
      assert FitsAt(feed, n - 1);
    }
  }

  /** What is added keeps the flags of the connection it stands for: the last event of the address in
      the stretch is its add, with those flags. */
  lemma {:induction false} NetFlags(feed: seq<Event>, from: nat, n: nat, a: Addr) returns (k: nat)
    requires ValidFeed(feed) && from <= n <= |feed| && a in Net(feed, from, n).added
    ensures from <= k < n && feed[k] == Event(true, a, Net(feed, from, n).added[a])
    ensures forall j :: k < j < n ==> feed[j].addr != a
    decreases n - from
  {
    assert n > from;
    var e := feed[n - 1];
    NetExact(feed, from, n - 1);
    assert FitsAt(feed, n - 1);
    if e.add && e.addr == a {
      k := n - 1;
    } else {
      k := NetFlags(feed, from, n - 1, a);
    }
  }

  // ---- Messages ----------------------------------------------------------------------------------

  datatype PexMsg = PexMsg(
    added: seq<Addr>,
    addedFlags: seq<Flags>,
    added6: seq<Addr>,
    added6Flags: seq<Flags>,
    dropped: seq<Addr>,
    dropped6: seq<Addr>)

  const NO_MSG := PexMsg([], [], [], [], [], [])

  ghost predicate Distinct(s: seq<Addr>) { forall i, j :: 0 <= i < j < |s| ==> s[i] != s[j] }

  ghost predicate Lists(s: seq<Addr>, all: set<Addr>, v4: bool) {
    Distinct(s) && forall a :: a in s <==> a in all && a.V4? == v4
  }

  // Each flag belongs to the address at its place.
  ghost predicate Parallel(s: seq<Addr>, flags: seq<Flags>, added: map<Addr, Flags>) {
    |flags| == |s| && forall i :: 0 <= i < |s| ==> s[i] in added && flags[i] == added[s[i]]
  }

  /** The message lists exactly the net change, each address once, flags alongside. */
  ghost predicate Says(m: PexMsg, d: Delta) {
    && Lists(m.added, d.added.Keys, true) && Parallel(m.added, m.addedFlags, d.added)
    && Lists(m.added6, d.added.Keys, false) && Parallel(m.added6, m.added6Flags, d.added)
    && Lists(m.dropped, d.dropped, true) && Lists(m.dropped6, d.dropped, false)
  }

  function Without<T>(s: seq<T>, i: nat): seq<T>
    requires i < |s|
  {
    s[..i] + s[i + 1..]
  }

  lemma ListsWithout(s: seq<Addr>, all: set<Addr>, v4: bool, i: nat)
    requires Lists(s, all, v4) && i < |s|
    ensures Lists(Without(s, i), all - {s[i]}, v4)
  {
    var t := Without(s, i);
    forall a ensures a in t <==> a in s && a != s[i] {
      if a in s && a != s[i] {
        var j :| 0 <= j < |s| && s[j] == a;
        assert t[if j < i then j else j - 1] == a;
      }
    }
  }

  lemma ParallelWithout(s: seq<Addr>, flags: seq<Flags>, added: map<Addr, Flags>, i: nat)
    requires Distinct(s) && Parallel(s, flags, added) && i < |s|
    ensures Parallel(Without(s, i), Without(flags, i), added - {s[i]})
  {
    var t := Without(s, i);
    forall j | 0 <= j < |t| ensures t[j] in added - {s[i]} && Without(flags, i)[j] == added[t[j]] {
      assert t[j] == s[if j < i then j else j + 1];
    }
  }

  lemma ParallelOther(s: seq<Addr>, flags: seq<Flags>, added: map<Addr, Flags>, a: Addr)
    requires Parallel(s, flags, added) && a !in s
    ensures Parallel(s, flags, added - {a})
  {
  }

  lemma ListsPlus(s: seq<Addr>, all: set<Addr>, v4: bool, a: Addr)
    requires Lists(s, all, v4) && a !in all && a.V4? == v4
    ensures Lists(s + [a], all + {a}, v4)
  {
    assert a !in s;
  }

  lemma ListsOther(s: seq<Addr>, all: set<Addr>, v4: bool, a: Addr)
    requires Lists(s, all, v4) && a.V4? != v4
    ensures Lists(s, all - {a}, v4) && Lists(s, all + {a}, v4)
  {
  }

  method IndexOf(s: seq<Addr>, a: Addr) returns (i: int)
    ensures i >= 0 ==> i < |s| && s[i] == a
    ensures i < 0 <==> a !in s
  {
    i := 0;
    while i < |s|
      invariant 0 <= i <= |s| && a !in s[..i]
    {
      if s[i] == a {
        return;
      }
      i := i + 1;
    }
    i := -1;
  }

  class MsgFactory {
    var msg: PexMsg
    var added: set<Addr>
    var dropped: set<Addr>

    ghost predicate Holds(d: Delta)
      reads this
    {
      Says(msg, d) && added == d.added.Keys && dropped == d.dropped
    }

    constructor ()
      ensures Holds(NONE)
    {
      msg, added, dropped := NO_MSG, {}, {};
    }

    method Add(e: Event, ghost d: Delta)
      requires e.add && Holds(d)
      modifies this
      ensures Holds(Step(d, e))
    {
      if e.addr in added {
        return;
      }
      var a := e.addr;
      if a in dropped {
        if a.V4? {
          var i := IndexOf(msg.dropped, a);
          ListsWithout(msg.dropped, dropped, true, i);
          ListsOther(msg.dropped6, dropped, false, a);
          msg := msg.(dropped := Without(msg.dropped, i));
        } else {
          var i := IndexOf(msg.dropped6, a);
          ListsWithout(msg.dropped6, dropped, false, i);
          ListsOther(msg.dropped, dropped, true, a);
          msg := msg.(dropped6 := Without(msg.dropped6, i));
        }
        dropped := dropped - {a};
        return;
      }
      if a.V4? {
        ListsPlus(msg.added, added, true, a);
        ListsOther(msg.added6, added, false, a);
        msg := msg.(added := msg.added + [a], addedFlags := msg.addedFlags + [e.flags]);
      } else {
        ListsPlus(msg.added6, added, false, a);
        ListsOther(msg.added, added, true, a);
        msg := msg.(added6 := msg.added6 + [a], added6Flags := msg.added6Flags + [e.flags]);
      }
      added := added + {a};
      assert d.added[a := e.flags].Keys == d.added.Keys + {a};
    }

    method Unadd(a: Addr, ghost d: Delta)
      requires Holds(d) && a in added
      modifies this
      ensures Holds(d.(added := d.added - {a}))
    {
      assert (d.added - {a}).Keys == d.added.Keys - {a};
      if a.V4? {
        var i := IndexOf(msg.added, a);
        ListsWithout(msg.added, added, true, i);
        ParallelWithout(msg.added, msg.addedFlags, d.added, i);
        ListsOther(msg.added6, added, false, a);
        ParallelOther(msg.added6, msg.added6Flags, d.added, a);
        msg := msg.(added := Without(msg.added, i), addedFlags := Without(msg.addedFlags, i));
      } else {
        var i := IndexOf(msg.added6, a);
        ListsWithout(msg.added6, added, false, i);
        ParallelWithout(msg.added6, msg.added6Flags, d.added, i);
        ListsOther(msg.added, added, true, a);
        ParallelOther(msg.added, msg.addedFlags, d.added, a);
        msg := msg.(added6 := Without(msg.added6, i), added6Flags := Without(msg.added6Flags, i));
      }
      added := added - {a};
    }

    method Drop(e: Event, ghost d: Delta)
      requires !e.add && Holds(d)
      modifies this
      ensures Holds(Step(d, e))
    {
      if e.addr in dropped {
        return;
      }
      var a := e.addr;
      if a in added {
        Unadd(a, d);
        return;
      }
      if a.V4? {
        ListsPlus(msg.dropped, dropped, true, a);
        ListsOther(msg.dropped6, dropped, false, a);
        msg := msg.(dropped := msg.dropped + [a]);
      } else {
        ListsPlus(msg.dropped6, dropped, false, a);
        ListsOther(msg.dropped, dropped, true, a);
        msg := msg.(dropped6 := msg.dropped6 + [a]);
      }
      dropped := dropped + {a};
    }

    method Append(e: Event, ghost d: Delta)
      requires Holds(d)
      modifies this
      ensures Holds(Step(d, e))
    {
      if e.add {
        Add(e, d);
      } else {
        Drop(e, d);
      }
    }

    method DeltaLen(ghost d: Delta) returns (n: nat)
      requires Holds(d)
      ensures n == Size(d)
    {
      Sizes(d);
      n := if |added| > |dropped| then |added| else |dropped|;
    }
  }

  // ---- Cursors -----------------------------------------------------------------------------------

  // A peer that was sent nothing yet has no cursor; the others count the events they were told of.
  datatype Cursor = Start | At(n: nat)

  ghost predicate Within(c: Cursor, feed: seq<Event>) { c.At? ==> c.n <= |feed| }

  // What a peer at the cursor has been told is live.
  ghost function Told(feed: seq<Event>, c: Cursor): set<Addr>
    requires Within(c, feed)
  {
    if c.Start? then {} else LiveAt(feed, c.n)
  }

  function Size(d: Delta): nat { if |d.added| > |d.dropped| then |d.added| else |d.dropped| }

  lemma Sizes(d: Delta)
    ensures Size(d) == if |d.added.Keys| > |d.dropped| then |d.added.Keys| else |d.dropped|
  {
  }

  // How far one message goes: to the end of the feed, or to where the message is full.
  function Reach(feed: seq<Event>, from: nat, n: nat): (r: nat)
    requires from <= n <= |feed|
    ensures n <= r <= |feed|
    decreases |feed| - n
  {
    if n == |feed| || Size(Net(feed, from, n)) >= MAX_DELTA then n else Reach(feed, from, n + 1)
  }

  function Message(feed: seq<Event>, c: Cursor): (Delta, Cursor)
    requires c.At? ==> c.n <= |feed|
  {
    if c.Start? then (Net(feed, 0, |feed|), if feed == [] then Start else At(|feed|))
    else var n := Reach(feed, c.n, c.n); (Net(feed, c.n, n), At(n))
  }

  lemma SizeStep(d: Delta, e: Event)
    ensures Size(Step(d, e)) <= Size(d) + 1
  {
  }

  lemma {:induction false} ReachBounds(feed: seq<Event>, from: nat, n: nat)
    requires from <= n <= |feed| && Size(Net(feed, from, n)) <= MAX_DELTA
    ensures Size(Net(feed, from, Reach(feed, from, n))) <= MAX_DELTA
    decreases |feed| - n
  {
    if n < |feed| && Size(Net(feed, from, n)) < MAX_DELTA {
      SizeStep(Net(feed, from, n), feed[n]);
      ReachBounds(feed, from, n + 1);
    }
  }

  /** One message takes a peer's view from its cursor to the new cursor, exactly; what it adds and
      drops is disjoint, and after the first message each list is at most 50 long. */
  lemma MessageExact(feed: seq<Event>, c: Cursor)
    requires ValidFeed(feed) && Within(c, feed)
    ensures var (d, c') := Message(feed, c);
            && Within(c', feed)
            && Apply(Told(feed, c), d) == Told(feed, c')
            && d.added.Keys !! d.dropped
            && (c.At? ==> |d.added| <= 50 && |d.dropped| <= 50 && c'.At? && c.n <= c'.n)
  {
    if c.Start? {
      NetExact(feed, 0, |feed|);
    } else {
      ReachBounds(feed, c.n, c.n);
      NetExact(feed, c.n, Reach(feed, c.n, c.n));
    }
  }

  /** A message only stops short of the end of the feed when it is full. */
  lemma {:induction false} ReachesEnd(feed: seq<Event>, from: nat, n: nat)
    requires from <= n <= |feed|
    ensures Reach(feed, from, n) < |feed| ==> Size(Net(feed, from, Reach(feed, from, n))) >= MAX_DELTA
    decreases |feed| - n
  {
    if n < |feed| && Size(Net(feed, from, n)) < MAX_DELTA {
      ReachesEnd(feed, from, n + 1);
    }
  }

  /** A message tells of everything in the feed, or one of its lists is full. */
  lemma MessageReaches(feed: seq<Event>, c: Cursor)
    requires Within(c, feed)
    ensures var (d, c') := Message(feed, c);
            Within(c', feed) && (Told(feed, c') == Live(feed) || (c.At? && (|d.added| >= 50 || |d.dropped| >= 50)))
  {
    if c.At? {
      ReachesEnd(feed, c.n, c.n);
    }
  }

  // ---- Runs of one peer --------------------------------------------------------------------------

  ghost predicate Grows(feeds: seq<seq<Event>>) {
    forall i :: 0 <= i < |feeds| - 1 ==> feeds[i] <= feeds[i + 1]
  }

  // An empty message is not sent, and then the cursor stays too.
  function Advance(feed: seq<Event>, c: Cursor): (Delta, Cursor)
    requires c.At? ==> c.n <= |feed|
  {
    var (d, c') := Message(feed, c);
    if d == NONE then (NONE, c) else (d, c')
  }

  ghost predicate Sees(feed: seq<Event>, c: Cursor, live: set<Addr>) {
    Within(c, feed) && Told(feed, c) == live
  }

  // The view of a peer sent one message at each of these moments of a growing feed.
  ghost function View(feeds: seq<seq<Event>>): (v: (Cursor, set<Addr>))
    decreases |feeds|
  {
    if feeds == [] then (Start, {})
    else
      var feed := feeds[|feeds| - 1];
      var (c, live) := View(feeds[..|feeds| - 1]);
      if !Within(c, feed) then (c, live)
      else
        var (d, c') := Advance(feed, c);
        (c', Apply(live, d))
  }

  lemma SeesLater(feed: seq<Event>, later: seq<Event>, c: Cursor, live: set<Addr>)
    requires Sees(feed, c, live) && feed <= later
    ensures Sees(later, c, live)
  {
    if c.At? {
      LongerLive(feed, later, c.n);
    }
  }

  /** However the feed grows and whenever messages are sent, applying them in order gives exactly the
      live set of the feed up to the cursor. */
  lemma {:induction false} ViewExact(feeds: seq<seq<Event>>)
    requires feeds != [] && Grows(feeds) && forall feed <- feeds :: ValidFeed(feed)
    ensures var (c, live) := View(feeds); Sees(feeds[|feeds| - 1], c, live)
    decreases |feeds|
  {
    var init, feed := feeds[..|feeds| - 1], feeds[|feeds| - 1];
    var (c, live) := View(init);
    if init != [] {
      ViewExact(init);
      assert init[|init| - 1] == feeds[|init| - 1] <= feeds[|init| - 1 + 1];
      SeesLater(init[|init| - 1], feed, c, live);
    }
    MessageExact(feed, c);
    assert Apply(live, NONE) == live;
  }

  lemma AdvanceKeepsUp(feed: seq<Event>, c: Cursor, live: set<Addr>)
    requires ValidFeed(feed) && Sees(feed, c, live)
    ensures var d := Advance(feed, c).0;
            Apply(live, d) == Live(feed) || (c.At? && Size(d) >= 50)
  {
    var d, c' := TellsAll(feed, c);
    assert Apply(live, NONE) == live;
    assert Advance(feed, c).0 == d;
  }

  lemma TellsAll(feed: seq<Event>, c: Cursor) returns (d: Delta, c': Cursor)
    requires ValidFeed(feed) && Within(c, feed)
    ensures Message(feed, c) == (d, c') && (Apply(Told(feed, c), d) == Live(feed) || (c.At? && Size(d) >= 50))
  {
    d, c' := Message(feed, c).0, Message(feed, c).1;
    MessageExact(feed, c);
    MessageReaches(feed, c);
  }

  /** And the peer keeps up: after each of these moments it has been told of everything in the feed, or
      has just been sent a full message. */
  lemma ViewKeepsUp(feeds: seq<seq<Event>>)
    requires feeds != [] && Grows(feeds) && forall feed <- feeds :: ValidFeed(feed)
    ensures var feed, c := feeds[|feeds| - 1], View(feeds[..|feeds| - 1]).0;
            && Within(c, feed)
            && (View(feeds).1 == Live(feed) || (c.At? && Size(Advance(feed, c).0) >= 50))
  {
    var init, feed := feeds[..|feeds| - 1], feeds[|feeds| - 1];
    var (c, live) := View(init);
    if init != [] {
      ViewExact(init);
      assert init[|init| - 1] == feeds[|init| - 1] <= feeds[|init| - 1 + 1];
      SeesLater(init[|init| - 1], feed, c, live);
    }
    assert Sees(feed, c, live);
    AdvanceKeepsUp(feed, c, live);
  }

  // ---- The hold buffer ---------------------------------------------------------------------------

  datatype State = State(feed: seq<Event>, hold: seq<Event>, nc: int)

  function OnAdd(s: State, e: Event): State {
    if s.nc + 1 >= TARGET_ADDED then State(s.feed + s.hold + [e], [], s.nc + 1)
    else State(s.feed + [e], s.hold, s.nc + 1)
  }

  function OnDrop(s: State, e: Event): State {
    if s.nc - 1 < TARGET_ADDED && |s.hold| < MAX_HOLD then State(s.feed, s.hold + [e], s.nc - 1)
    else State(s.feed + [e], s.hold, s.nc - 1)
  }

  function Held(es: seq<Event>): set<Addr> { set e | e in es :: e.addr }

  // The feed is valid, and live in it are the connections and those whose drop is on hold.
  ghost predicate Tracks(s: State, conns: set<Addr>) {
    && ValidFeed(s.feed) && Live(s.feed) == conns + Held(s.hold) && conns !! Held(s.hold)
    && HoldRight(s.hold) && s.nc == |conns|
  }

  // On hold are drops of different addresses, not too many.
  ghost predicate HoldRight(hold: seq<Event>) {
    && (forall e <- hold :: !e.add)
    && (forall i, j :: 0 <= i < j < |hold| ==> hold[i].addr != hold[j].addr)
    && |hold| <= 25
  }

  lemma HoldMore(hold: seq<Event>, e: Event)
    requires HoldRight(hold) && !e.add && e.addr !in Held(hold) && |hold| < MAX_HOLD
    ensures HoldRight(hold + [e]) && Held(hold + [e]) == Held(hold) + {e.addr}
  {
    forall i | 0 <= i < |hold| ensures hold[i].addr != e.addr {
      assert hold[i] in hold;
      assert hold[i].addr in Held(hold);
    }
  }

  lemma MovedToHold(conns: set<Addr>, held: set<Addr>, a: Addr)
    requires conns !! held && a in conns
    ensures (conns - {a}) + (held + {a}) == conns + held && (conns - {a}) !! (held + {a})
  {
  }

  lemma {:induction false} Flush(feed: seq<Event>, hold: seq<Event>)
    requires ValidFeed(feed) && Held(hold) <= Live(feed) && forall e <- hold :: !e.add
    requires forall i, j :: 0 <= i < j < |hold| ==> hold[i].addr != hold[j].addr
    ensures ValidFeed(feed + hold) && Live(feed + hold) == Live(feed) - Held(hold)
    decreases |hold|
  {
    if hold == [] {
      assert feed + hold == feed;
    } else {
      var init, e := hold[..|hold| - 1], hold[|hold| - 1];
      assert Held(hold) == Held(init) + {e.addr};
      assert e.addr !in Held(init);
      Flush(feed, init);
      assert feed + hold == feed + init + [e];
      Append(feed + init, e);
    }
  }

  lemma AddFed(s: State, conns: set<Addr>, e: Event)
    requires Tracks(s, conns) && e.add && e.addr !in conns
    ensures var t := State(s.feed + [e], s.hold, s.nc + 1);
            && (ValidFeed(t.feed) <==> e.addr !in Held(s.hold))
            && (ValidFeed(t.feed) ==> Tracks(t, conns + {e.addr}))
  {
    Append(s.feed, e);
    if e.addr !in Held(s.hold) {
      MovedToHold(conns + {e.addr}, Held(s.hold), e.addr);
      assert Live(s.feed + [e]) == (conns + {e.addr}) + Held(s.hold);
    }
  }

  lemma AddFlushed(s: State, conns: set<Addr>, e: Event)
    requires Tracks(s, conns) && e.add && e.addr !in conns
    ensures Tracks(State(s.feed + s.hold + [e], [], s.nc + 1), conns + {e.addr})
  {
    Flush(s.feed, s.hold);
    assert Live(s.feed + s.hold) == conns;
    Append(s.feed + s.hold, e);
    assert Held([]) == {};
  }

  /** A new connection keeps the feed valid exactly when its address is not waiting to be dropped, or
      the wait ends now. */
  lemma AddTracks(s: State, conns: set<Addr>, e: Event)
    requires Tracks(s, conns) && e.add && e.addr !in conns
    ensures ValidFeed(OnAdd(s, e).feed) <==> e.addr !in Held(s.hold) || s.nc + 1 >= TARGET_ADDED
    ensures ValidFeed(OnAdd(s, e).feed) ==> Tracks(OnAdd(s, e), conns + {e.addr})
  {
    if s.nc + 1 >= TARGET_ADDED {
      AddFlushed(s, conns, e);
    } else {
      AddFed(s, conns, e);
    }
  }

  lemma OneLess(conns: set<Addr>, a: Addr)
    requires a in conns
    ensures |conns - {a}| == |conns| - 1
  {
  }

  lemma DropHeld(s: State, conns: set<Addr>, e: Event)
    requires Tracks(s, conns) && !e.add && e.addr in conns && |s.hold| < MAX_HOLD
    ensures Tracks(State(s.feed, s.hold + [e], s.nc - 1), conns - {e.addr})
  {
    OneLess(conns, e.addr);
    MovedToHold(conns, Held(s.hold), e.addr);
    HoldMore(s.hold, e);
  }

  lemma DropFed(s: State, conns: set<Addr>, e: Event)
    requires Tracks(s, conns) && !e.add && e.addr in conns
    ensures Tracks(State(s.feed + [e], s.hold, s.nc - 1), conns - {e.addr})
  {
    OneLess(conns, e.addr);
    Append(s.feed, e);
  }

  lemma DropTracks(s: State, conns: set<Addr>, e: Event)
    requires Tracks(s, conns) && !e.add && e.addr in conns
    ensures Tracks(OnDrop(s, e), conns - {e.addr})
  {
    if s.nc - 1 < TARGET_ADDED && |s.hold| < MAX_HOLD {
      DropHeld(s, conns, e);
    } else {
      DropFed(s, conns, e);
    }
  }

  /** When drops are held back: a drop is, exactly while fewer than 25 connections are left and fewer than
      25 drops are held already; and as soon as there are 25 connections again, whatever was held goes
      out, so that the feed says exactly who is connected. */
  lemma HeldBackWhen(s: State, conns: set<Addr>, e: Event)
    requires Tracks(s, conns) && (e.add <==> e.addr !in conns)
    ensures !e.add && |conns| - 1 < 25 && |s.hold| < 25 ==> OnDrop(s, e).feed == s.feed && OnDrop(s, e).hold == s.hold + [e]
    ensures !e.add && (|conns| - 1 >= 25 || |s.hold| >= 25) ==> OnDrop(s, e).feed == s.feed + [e] && OnDrop(s, e).hold == s.hold
    ensures e.add && |conns| + 1 >= 25 ==> OnAdd(s, e).hold == [] && Live(OnAdd(s, e).feed) == conns + {e.addr}
    ensures e.add && |conns| + 1 < 25 ==> OnAdd(s, e).feed == s.feed + [e] && OnAdd(s, e).hold == s.hold
  {
    if e.add {
      AddTracks(s, conns, e);
      assert Held([]) == {};
    }
  }

  /** Losing and regaining one connection is enough to spoil the feed: the address is added twice, and
      the drop still on hold will later remove it although it is connected. */
  lemma ReconnectSpoils(a: Addr, f: Flags)
    ensures var s := OnAdd(OnDrop(OnAdd(State([], [], 0), Event(true, a, f)), Event(false, a, f)), Event(true, a, f));
            !ValidFeed(s.feed) && a in Live(s.feed) && a !in Live(s.feed + s.hold)
  {
    var add, drop := Event(true, a, f), Event(false, a, f);
    assert [] + [add] == [add];
    Append([], add);
    Append([add], add);
    assert [add] + [add] == [add, add];
    Append([add, add], drop);
    assert [] + [drop] == [drop];
  }

  class PexState {
    var feed: seq<Event>
    var hold: seq<Event>
    var nc: int
    var msg0: MsgFactory

    ghost function Value(): State
      reads this
    {
      State(feed, hold, nc)
    }

    // The first message always stands ready.
    ghost predicate Valid()
      reads this, msg0
    {
      msg0.Holds(Net(feed, 0, |feed|))
    }

    constructor ()
      ensures Valid() && Value() == State([], [], 0) && fresh(msg0)
    {
      feed, hold, nc := [], [], 0;
      msg0 := new MsgFactory();
    }

    method AppendEvent(e: Event)
      requires Valid()
      modifies this`feed, msg0
      ensures Valid() && feed == old(feed) + [e]
    {
      LongerNet(feed, feed + [e], 0, |feed|);
      msg0.Append(e, Net(feed, 0, |feed|));
      feed := feed + [e];
    }

    method Add(e: Event)
      requires Valid() && e.add
      modifies this`feed, this`hold, this`nc, msg0
      ensures Valid() && Value() == OnAdd(old(Value()), e)
    {
      nc := nc + 1;
      if nc >= TARGET_ADDED {
        var held := hold;
        for i := 0 to |held|
          invariant Valid() && feed == old(feed) + held[..i] && nc == old(nc) + 1
        {
          AppendEvent(held[i]);
        }
        assert held[..|held|] == held;
        hold := [];
      }
      AppendEvent(e);
    }

    method Drop(e: Event)
      requires Valid() && !e.add
      modifies this`feed, this`hold, this`nc, msg0
      ensures Valid() && Value() == OnDrop(old(Value()), e)
    {
      if nc - 1 < TARGET_ADDED && |hold| < MAX_HOLD {
        hold := hold + [e];
      } else {
        AppendEvent(e);
      }
      nc := nc - 1;
    }

    method Genmsg(c: Cursor) returns (msg: PexMsg, last: Cursor)
      requires Valid() && Within(c, feed)
      ensures last == Message(feed, c).1 && Says(msg, Message(feed, c).0)
    {
      if c.Start? {
        return msg0.msg, if feed == [] then Start else At(|feed|);
      }
      var n;
      msg, n := Walk(c.n);
      last := At(n);
    }

    // Takes in events from the cursor on until the message is full.
    method Walk(from: nat) returns (msg: PexMsg, n: nat)
      requires from <= |feed|
      ensures n == Reach(feed, from, from) && Says(msg, Net(feed, from, n))
    {
      var events := feed;
      var factory := new MsgFactory();
      ghost var d := NONE;
      n := from;
      while n < |events|
        invariant from <= n <= |events|
        invariant d == Net(events, from, n) && Reach(events, from, n) == Reach(events, from, from)
        invariant factory.Holds(d)
      {
        var len := factory.DeltaLen(d);
        if len >= MAX_DELTA {
          break;
        }
        factory.Append(events[n], d);
        d := Step(d, events[n]);
        n := n + 1;
      }
      msg := factory.msg;
    }
  }

  // ---- The receiver ------------------------------------------------------------------------------

  class Receiver {
    var remoteLive: map<Addr, Flags>

    method DropAll(s: seq<Addr>)
      modifies this
      ensures remoteLive == old(remoteLive) - (set a | a in s)
    {
      for i := 0 to |s|
        invariant remoteLive == old(remoteLive) - (set a | a in s[..i])
      {
        remoteLive := remoteLive - {s[i]};
        assert s[..i + 1] == s[..i] + [s[i]];
      }
      assert s[..|s|] == s;
    }

    method AddAll(s: seq<Addr>, flags: seq<Flags>, ghost added: map<Addr, Flags>)
      requires Parallel(s, flags, added)
      modifies this
      ensures remoteLive.Keys == old(remoteLive).Keys + (set a | a in s)
      ensures forall a <- remoteLive :: remoteLive[a] == if a in s then added[a] else old(remoteLive)[a]
    {
      for i := 0 to |s|
        invariant remoteLive.Keys == old(remoteLive).Keys + (set a | a in s[..i])
        invariant forall a <- remoteLive :: remoteLive[a] == if a in s[..i] then added[a] else old(remoteLive)[a]
      {
        remoteLive := remoteLive[s[i] := flags[i]];
        assert s[..i + 1] == s[..i] + [s[i]];
      }
      assert s[..|s|] == s;
    }

    /** Receiving a message does to the receiver's view what its delta says. */
    method UpdateRemoteLiveConns(m: PexMsg, ghost d: Delta)
      requires Says(m, d)
      modifies this
      ensures remoteLive.Keys == Apply(old(remoteLive.Keys), d)
      ensures forall a <- d.added :: a in remoteLive && remoteLive[a] == d.added[a]
      ensures forall a <- remoteLive :: a !in d.added ==> a in old(remoteLive) && remoteLive[a] == old(remoteLive)[a]
    {
      DropAll(m.dropped);
      DropAll(m.dropped6);
      AddAll(m.added, m.addedFlags, d.added);
      AddAll(m.added6, m.added6Flags, d.added);
    }
  }
}
