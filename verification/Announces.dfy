/**
 * The dispatcher of tracker announces. One table of records is the truth; which announce a tracker
 * should make next, how many are in flight per tracker and per torrent, and a copy of that last count
 * in every record, are derived tables kept up to date by triggers that call each other.
 */
module Announces {
  import opened Basics

  type Url = nat
  type InfoHash = nat
  type Time = int

  datatype Key = Key(url: Url, ih: InfoHash)

  datatype Input = Input(
    tracked: bool,
    wantPeers: bool,
    needData: bool,
    webseeds: bool,
    // Position of the announce event: started, stopped, completed, none.
    event: int,
    when: Time,
    infohashActive: nat,
    overdue: bool,
    active: bool)

  datatype Head = Head(requests: nat, key: Key, input: Input)

  const MAX_CONCURRENT_PER_TRACKER: nat := 2

  // ---- Comparisons -------------------------------------------------------------------------------

  function Or(a: int, b: int): int { if a != 0 then a else b }
  function Compare(a: int, b: int): int { if a < b then -1 else if a > b then 1 else 0 }
  function CompareBool(a: bool, b: bool): int { if a == b then 0 else if a then 1 else -1 }

  function CompareNextAnnounce(a: Input, b: Input): int {
    var ret := Or(CompareBool(a.active, b.active), -CompareBool(a.overdue, b.overdue));
    var whenCmp := Compare(a.when, b.when);
    if ret != 0 then ret
    else if !a.overdue && whenCmp != 0 then whenCmp
    else
      Or(Compare(a.infohashActive, b.infohashActive),
      Or(-CompareBool(a.tracked, b.tracked),
      Or(-CompareBool(a.wantPeers, b.wantPeers),
      Or(-CompareBool(a.needData, b.needData),
      Or(CompareBool(a.webseeds, b.webseeds),
      Or(Compare(a.event, b.event), whenCmp))))))
  }

  function KeyCompare(a: Key, b: Key): int { Or(Compare(a.ih, b.ih), Compare(a.url, b.url)) }

  function AnnounceIndexCompare(a: Key, x: Input, b: Key, y: Input): int {
    Or(Compare(a.url, b.url), Or(CompareNextAnnounce(x, y), Compare(a.ih, b.ih)))
  }

  function HeadCompare(a: Head, b: Head): int {
    Or(Compare(a.requests, b.requests), Or(CompareNextAnnounce(a.input, b.input), KeyCompare(a.key, b.key)))
  }

  function Bit(b: bool): int { if b then 1 else 0 }

  // The reference: records compared by a fixed tuple of numbers.
  function Rank(h: Head): (k: seq<int>)
    ensures |k| == 13
  {
    var x := h.input;
    [ h.requests, Bit(x.active), Bit(!x.overdue), if x.overdue then 0 else x.when, x.infohashActive,
      Bit(!x.tracked), Bit(!x.wantPeers), Bit(!x.needData), Bit(x.webseeds), x.event, x.when, h.key.ih, h.key.url ]
  }

  lemma RanksDecide(a: Head, b: Head, i: int)
    requires FirstDifference(Rank(a), Rank(b), i)
    ensures HeadCompare(a, b) != 0 && (HeadCompare(a, b) < 0 <==> Rank(a)[i] < Rank(b)[i])
  {
    var x, y := Rank(a), Rank(b);
    assert i > 0 ==> x[0] == y[0];
    assert i > 1 ==> x[1] == y[1];
    assert i > 2 ==> x[2] == y[2];
    assert i > 3 ==> x[3] == y[3];
    assert i > 4 ==> x[4] == y[4];
    assert i > 5 ==> x[5] == y[5];
    assert i > 6 ==> x[6] == y[6];
    assert i > 7 ==> x[7] == y[7];
    assert i > 8 ==> x[8] == y[8];
    assert i > 9 ==> x[9] == y[9];
    assert i > 10 ==> x[10] == y[10];
    assert i > 11 ==> x[11] == y[11];
  }

  lemma HeadDecides(a: Head, b: Head)
    requires a.key != b.key
    ensures HeadCompare(a, b) != 0
    ensures HeadCompare(a, b) < 0 <==> Before(Rank(a), Rank(b))
  {
    var x, y := Rank(a), Rank(b);
    var i := DifferenceExists(x, y, 0, if a.key.ih != b.key.ih then 11 else 12);
    forall j | FirstDifference(x, y, j) ensures j == i {
      assert i <= j && j <= i;
    }
    RanksDecide(a, b, i);
  }

  /** The comparison of announces of different keys is a strict total order. */
  lemma HeadsOrdered(a: Head, b: Head, c: Head)
    requires a.key != b.key && b.key != c.key && a.key != c.key
    ensures HeadCompare(a, b) < 0 <==> !(HeadCompare(b, a) < 0)
    ensures HeadCompare(a, b) < 0 && HeadCompare(b, c) < 0 ==> HeadCompare(a, c) < 0
  {
    HeadDecides(a, b);
    HeadDecides(b, a);
    HeadDecides(b, c);
    HeadDecides(a, c);
    var i := DifferenceExists(Rank(a), Rank(b), 0, if a.key.ih != b.key.ih then 11 else 12);
    assert FirstDifference(Rank(b), Rank(a), i);
    if HeadCompare(a, b) < 0 {
      BeforeAsymmetric(Rank(a), Rank(b));
      if HeadCompare(b, c) < 0 {
        BeforeTransitive(Rank(a), Rank(b), Rank(c));
      }
    }
  }

  /** Who goes first, criterion by criterion: the tracker with fewer announces in flight; an idle announce;
      an overdue one; of two that are not overdue the one due earlier; and of two that are overdue, one
      whose torrent has fewer in flight, then one tracked by the client, one that wants peers, one that
      needs data, and one without webseeds. */
  lemma GoesFirst(a: Head, b: Head)
    requires a.key != b.key
    ensures var x, y := a.input, b.input;
            && (a.requests < b.requests ==> HeadCompare(a, b) < 0)
            && (a.requests == b.requests && !x.active && y.active ==> HeadCompare(a, b) < 0)
            && (a.requests == b.requests && x.active == y.active ==>
                  && (x.overdue && !y.overdue ==> HeadCompare(a, b) < 0)
                  && (!x.overdue && !y.overdue && x.when < y.when ==> HeadCompare(a, b) < 0)
                  && (x.overdue && y.overdue && x.infohashActive < y.infohashActive ==> HeadCompare(a, b) < 0)
                  && (x.overdue && y.overdue && x.infohashActive == y.infohashActive ==>
                        && (x.tracked && !y.tracked ==> HeadCompare(a, b) < 0)
                        && (x.tracked == y.tracked && x.wantPeers && !y.wantPeers ==> HeadCompare(a, b) < 0)
                        && (x.tracked == y.tracked && x.wantPeers == y.wantPeers && x.needData && !y.needData ==> HeadCompare(a, b) < 0)
                        && ((x.tracked, x.wantPeers, x.needData) == (y.tracked, y.wantPeers, y.needData) && !x.webseeds && y.webseeds
                            ==> HeadCompare(a, b) < 0)))
  {
  }

  lemma SameTracker(a: Key, x: Input, b: Key, y: Input)
    requires a.url == b.url
    ensures AnnounceIndexCompare(a, x, b, y) == HeadCompare(Head(0, a, x), Head(0, b, y))
  {
  }

  // ---- Overdue -----------------------------------------------------------------------------------

  // The index updateOverdue scans: overdue ones first, then by time, then by key.
  function OverdueIndexCompare(a: Key, x: Input, b: Key, y: Input): int {
    Or(Or(-CompareBool(x.overdue, y.overdue), Compare(x.when, y.when)), KeyCompare(a, b))
  }

  const LEAST_KEY := Key(0, 0)
  const LEAST_INPUT := Input(false, false, false, false, 0, 0, 0, true, false)

  // Between the first overdue record after now and the first other record after now.
  predicate InScan(k: Key, x: Input, now: Time) {
    && OverdueIndexCompare(k, x, LEAST_KEY, LEAST_INPUT.(when := now + 1)) >= 0
    && OverdueIndexCompare(k, x, LEAST_KEY, LEAST_INPUT.(overdue := false, when := now + 1)) < 0
  }

  predicate Right(x: Input, now: Time) { x.overdue == (x.when <= now) }

  /** One range of the index holds exactly the records whose overdue flag is wrong. */
  lemma ScanFindsWrong(k: Key, x: Input, now: Time)
    ensures InScan(k, x, now) <==> !Right(x, now)
  {
  }

  // Overdue before its time, and not (yet) overdue.
  function Early(d: map<Key, Input>, now: Time): set<Key> { set k | k in d && d[k].overdue && d[k].when > now }
  function Waiting(d: map<Key, Input>): set<Key> { set k | k in d && !d[k].overdue }

  // How often overdue flags can still change while the clock only goes forward.
  function Changes(d: map<Key, Input>, now: Time): nat { 2 * |Early(d, now)| + |Waiting(d)| }

  lemma FewerWithTime(d: map<Key, Input>, now: Time, later: Time)
    requires now <= later
    ensures Changes(d, later) <= Changes(d, now)
  {
    SubsetSize(Early(d, later), Early(d, now));
  }

  /** Every flag brought in line with the clock uses up a change. */
  lemma OneChangeLess(d: map<Key, Input>, key: Key, now: Time)
    requires key in d && !Right(d[key], now)
    ensures Changes(d[key := d[key].(overdue := d[key].when <= now)], now) < Changes(d, now)
  {
    var e := d[key := d[key].(overdue := d[key].when <= now)];
    if d[key].overdue {
      assert Early(d, now) == Early(e, now) + {key} && Waiting(e) == Waiting(d) + {key};
    } else {
      assert Early(d, now) == Early(e, now) && Waiting(d) == Waiting(e) + {key};
    }
  }

  // Right by a clock that went from one reading to another meanwhile.
  predicate Timely(x: Input, from: Time, to: Time) {
    (x.when <= from ==> x.overdue) && (x.overdue ==> x.when <= to)
  }

  ghost predicate AllTimely(d: map<Key, Input>, from: Time, to: Time) {
    forall k <- d :: Timely(d[k], from, to)
  }

  /** When the clock stood still, overdue is exactly being due. */
  lemma TimelyIsRight(x: Input, now: Time)
    ensures Timely(x, now, now) <==> Right(x, now)
  {
  }

  lemma TimelySince(d: map<Key, Input>, from: Time, later: Time, to: Time)
    requires AllTimely(d, later, to) && from <= later
    ensures AllTimely(d, from, to)
  {
  }

  // Timely outside some keys.
  ghost predicate TimelyBut(d: map<Key, Input>, keys: set<Key>, from: Time, to: Time) {
    forall k <- d :: k !in keys ==> Timely(d[k], from, to)
  }

  // Marking one record leaves the others alone, or in passing makes them timely too.
  ghost predicate Marked(d: map<Key, Input>, e: map<Key, Input>, key: Key, from: Time, to: Time) {
    d.Keys == e.Keys && forall k <- e :: Timely(e[k], from, to) || (k != key && e[k] == d[k])
  }

  lemma ScannedTimely(d: map<Key, Input>, todo: set<Key>, now: Time, to: Time)
    requires todo == (set k | k in d && InScan(k, d[k], now)) && now <= to
    ensures TimelyBut(d, todo, now, to)
  {
    forall k | k in d && k !in todo ensures Timely(d[k], now, to) {
      ScanFindsWrong(k, d[k], now);
    }
  }

  lemma MarkedTimely(d: map<Key, Input>, e: map<Key, Input>, todo: set<Key>, key: Key, now: Time, from: Time, to: Time)
    requires TimelyBut(d, todo, now, from) && Marked(d, e, key, from, to) && now <= from <= to
    ensures TimelyBut(e, todo - {key}, now, to)
  {
  }

  lemma AllMarked(d: map<Key, Input>, e: map<Key, Input>, key: Key, from: Time, later: Time, to: Time)
    requires Same(d, e) && AllTimely(e, later, to) && from <= later
    ensures Marked(d, e, key, from, to)
  {
  }

  lemma AlreadyMarked(d: map<Key, Input>, key: Key, from: Time, to: Time)
    requires key in d && Right(d[key], from) && from <= to
    ensures Marked(d, d, key, from, to)
  {
  }

  lemma ChangeMade(d: map<Key, Input>, key: Key, now: Time, later: Time)
    requires key in d && !Right(d[key], now) && now <= later
    ensures Changes(d[key := d[key].(overdue := d[key].when <= now)], later) < Changes(d, now)
    ensures Same(d, d[key := d[key].(overdue := d[key].when <= now)])
  {
    OneChangeLess(d, key, now);
    FewerWithTime(d[key := d[key].(overdue := d[key].when <= now)], now, later);
  }

  predicate NotAfter(clock: nat -> Time, i: nat, j: nat) { clock(i) <= clock(j) }

  ghost predicate GoesForward(clock: nat -> Time) {
    forall i: nat, j: nat :: i <= j ==> NotAfter(clock, i, j)
  }

  // ---- Derived tables ----------------------------------------------------------------------------

  // The tables agree but for overdue flags.
  ghost predicate Same(d: map<Key, Input>, e: map<Key, Input>) {
    d.Keys == e.Keys && forall k <- d :: Agree(d[k], e[k])
  }

  predicate Agree(x: Input, y: Input) { y.(overdue := x.overdue) == x }

  function ActiveOn(d: map<Key, Input>, url: Url): set<Key> { set k | k in d && k.url == url && d[k].active }
  function ActiveFor(d: map<Key, Input>, ih: InfoHash): set<Key> { set k | k in d && k.ih == ih && d[k].active }

  function Count(m: map<nat, nat>, x: nat): nat { if x in m then m[x] else 0 }

  // The head of a tracker is its least record, with the tracker's announce count.
  ghost predicate HeadRight(d: map<Key, Input>, heads: map<Url, Head>, perTracker: map<Url, nat>, url: Url) {
    && (url in heads <==> exists k :: k in d && k.url == url)
    && (url in heads ==>
          var h := heads[url];
          && h.key in d && h.key.url == url && h.input == d[h.key] && h.requests == Count(perTracker, url)
          && forall k <- d :: k.url == url && k != h.key ==> AnnounceIndexCompare(h.key, h.input, k, d[k]) < 0)
  }

  ghost predicate HeadsRight(d: map<Key, Input>, heads: map<Url, Head>, perTracker: map<Url, nat>, stale: set<Url>) {
    forall url :: url !in stale ==> HeadRight(d, heads, perTracker, url)
  }

  ghost predicate TrackerRight(d: map<Key, Input>, perTracker: map<Url, nat>, url: Url) {
    Count(perTracker, url) == |ActiveOn(d, url)| <= MAX_CONCURRENT_PER_TRACKER
  }

  ghost predicate HashRight(d: map<Key, Input>, perHash: map<InfoHash, nat>, ih: InfoHash) {
    Count(perHash, ih) == |ActiveFor(d, ih)|
  }

  ghost predicate RecordRight(d: map<Key, Input>, perHash: map<InfoHash, nat>, k: Key) {
    k in d ==> d[k].infohashActive == Count(perHash, k.ih)
  }

  ghost predicate CountsRight(d: map<Key, Input>, perTracker: map<Url, nat>, perHash: map<InfoHash, nat>) {
    && (forall url :: TrackerRight(d, perTracker, url))
    && (forall ih :: HashRight(d, perHash, ih))
    && (forall k :: RecordRight(d, perHash, k))
  }

  lemma Opposite(a: Key, x: Input, b: Key, y: Input)
    requires a.url == b.url && a != b
    ensures AnnounceIndexCompare(a, x, b, y) < 0 <==> !(AnnounceIndexCompare(b, y, a, x) < 0)
  {
    SameTracker(a, x, b, y);
    SameTracker(b, y, a, x);
    var c := Key(a.url + 1, a.ih + b.ih + 1);
    HeadsOrdered(Head(0, a, x), Head(0, b, y), Head(0, c, x));
  }

  lemma NewBest(d: map<Key, Input>, todo: set<Key>, url: Url, old': Key, k: Key)
    requires old' in d && k in d && old'.url == url && k.url == url && k != old' && old' !in todo
    requires AnnounceIndexCompare(k, d[k], old', d[old']) < 0
    requires forall q <- d :: q !in todo && q != k && q.url == url && q != old' ==> AnnounceIndexCompare(old', d[old'], q, d[q]) < 0
    ensures forall q <- d :: q !in todo && q.url == url && q != k ==> AnnounceIndexCompare(k, d[k], q, d[q]) < 0
  {
    forall q | q in d && q !in todo && q.url == url && q != k
      ensures AnnounceIndexCompare(k, d[k], q, d[q]) < 0
    {
      if q != old' {
        SameTracker(k, d[k], q, d[q]);
        SameTracker(k, d[k], old', d[old']);
        SameTracker(old', d[old'], q, d[q]);
        HeadsOrdered(Head(0, k, d[k]), Head(0, old', d[old']), Head(0, q, d[q]));
      }
    }
  }

  // One record replaced: only its tracker's head can be out of date.
  lemma HeadsAfterUpdate(d: map<Key, Input>, heads: map<Url, Head>, perTracker: map<Url, nat>, k: Key, x: Input)
    requires HeadsRight(d, heads, perTracker, {})
    ensures HeadsRight(d[k := x], heads, perTracker, {k.url})
  {
    var e := d[k := x];
    forall url ensures url !in {k.url} ==> HeadRight(e, heads, perTracker, url) {
      assert HeadRight(d, heads, perTracker, url);
      if q :| q in e && q.url == url && url != k.url {
        assert q in d && q.url == url;
      }
    }
  }

  lemma OneHash(d: map<Key, Input>, perTracker: map<Url, nat>, perHash: map<InfoHash, nat>, key: Key)
    requires CountsRight(d, perTracker, perHash) && key in d
    ensures forall k <- d :: k.ih == key.ih ==> d[k].infohashActive == d[key].infohashActive
    ensures Count(perTracker, key.url) <= MAX_CONCURRENT_PER_TRACKER
  {
    assert RecordRight(d, perHash, key) && TrackerRight(d, perTracker, key.url);
    forall k | k in d && k.ih == key.ih ensures d[k].infohashActive == d[key].infohashActive {
      assert RecordRight(d, perHash, k);
    }
  }

  lemma SameTransitive(a: map<Key, Input>, b: map<Key, Input>, c: map<Key, Input>)
    requires Same(a, b) && Same(b, c)
    ensures Same(a, c)
  {
  }

  lemma SameCounts(d: map<Key, Input>, e: map<Key, Input>, url: Url, ih: InfoHash)
    requires Same(d, e)
    ensures ActiveOn(d, url) == ActiveOn(e, url) && ActiveFor(d, ih) == ActiveFor(e, ih)
  {
  }

  lemma CountsKept(d: map<Key, Input>, e: map<Key, Input>, perTracker: map<Url, nat>, perHash: map<InfoHash, nat>)
    requires Same(d, e) && CountsRight(d, perTracker, perHash)
    ensures CountsRight(e, perTracker, perHash)
  {
    forall url ensures TrackerRight(e, perTracker, url) {
      assert TrackerRight(d, perTracker, url);
      SameCounts(d, e, url, 0);
    }
    forall ih ensures HashRight(e, perHash, ih) {
      assert HashRight(d, perHash, ih);
      SameCounts(d, e, 0, ih);
    }
    forall k ensures RecordRight(e, perHash, k) {
      assert RecordRight(d, perHash, k);
    }
  }

  // ---- What starting and finishing an announce mean ----------------------------------------------

  // The records of some keys carry the announce count of their torrent.
  function Tagged(d: map<Key, Input>, keys: set<Key>, n: nat): map<Key, Input> {
    map k | k in d :: if k in keys then d[k].(infohashActive := n) else d[k]
  }

  function Of(d: map<Key, Input>, ih: InfoHash): set<Key> { set k | k in d && k.ih == ih }

  // One record replaced, and the new announce count in every record of its torrent.
  function Told(d: map<Key, Input>, key: Key, x: Input, n: nat): map<Key, Input> {
    Tagged(d[key := x], Of(d, key.ih), n)
  }

  function SetCount(m: map<nat, nat>, x: nat, n: nat): (m': map<nat, nat>)
    ensures forall y :: Count(m', y) == if y == x then n else Count(m, y)
  {
    if n == 0 then m - {x} else m[x := n]
  }

  function Step(n: nat, up: bool): int { if up then n + 1 else n - 1 }

  lemma ToldActive(d: map<Key, Input>, key: Key, x: Input, n: nat, k: Key)
    requires key in d
    ensures k in Told(d, key, x, n) <==> k in d
    ensures k in d ==> Told(d, key, x, n)[k].active == (if k == key then x.active else d[k].active)
  {
  }

  lemma OneMore(a: set<Key>, b: set<Key>, key: Key, up: bool)
    requires key in if up then b else a
    requires key !in if up then a else b
    requires forall k :: k != key ==> (k in a <==> k in b)
    ensures |b| == Step(|a|, up)
  {
    if up {
      assert b == a + {key};
    } else {
      assert a == b + {key};
    }
  }

  lemma ActiveOnAfter(d: map<Key, Input>, key: Key, x: Input, n: nat, url: Url)
    requires key in d && x.active != d[key].active
    ensures |ActiveOn(Told(d, key, x, n), url)|
            == if url == key.url then Step(|ActiveOn(d, url)|, x.active) else |ActiveOn(d, url)|
  {
    var a, b := ActiveOn(d, url), ActiveOn(Told(d, key, x, n), url);
    forall k ensures k != key ==> (k in a <==> k in b) {
      ToldActive(d, key, x, n, k);
    }
    ToldActive(d, key, x, n, key);
    if url == key.url {
      OneMore(a, b, key, x.active);
    } else {
      assert a == b;
    }
  }

  lemma ActiveForAfter(d: map<Key, Input>, key: Key, x: Input, n: nat, ih: InfoHash)
    requires key in d && x.active != d[key].active
    ensures |ActiveFor(Told(d, key, x, n), ih)|
            == if ih == key.ih then Step(|ActiveFor(d, ih)|, x.active) else |ActiveFor(d, ih)|
  {
    var a, b := ActiveFor(d, ih), ActiveFor(Told(d, key, x, n), ih);
    forall k ensures k != key ==> (k in a <==> k in b) {
      ToldActive(d, key, x, n, k);
    }
    ToldActive(d, key, x, n, key);
    if ih == key.ih {
      OneMore(a, b, key, x.active);
    } else {
      assert a == b;
    }
  }

  /** Starting or finishing one announce and stepping both counts keeps every derived count exact. */
  lemma CountsAfter(d: map<Key, Input>, perTracker: map<Url, nat>, perHash: map<InfoHash, nat>, key: Key, x: Input)
    requires CountsRight(d, perTracker, perHash) && key in d && x.active != d[key].active
    requires x.active ==> Count(perTracker, key.url) < MAX_CONCURRENT_PER_TRACKER
    ensures Step(Count(perTracker, key.url), x.active) >= 0 && Step(Count(perHash, key.ih), x.active) >= 0
    ensures var t, n := Step(Count(perTracker, key.url), x.active), Step(Count(perHash, key.ih), x.active);
            CountsRight(Told(d, key, x, n), SetCount(perTracker, key.url, t), SetCount(perHash, key.ih, n))
  {
    assert TrackerRight(d, perTracker, key.url) && HashRight(d, perHash, key.ih);
    ActiveOnAfter(d, key, x, 0, key.url);
    ActiveForAfter(d, key, x, 0, key.ih);
    var t, n := Step(Count(perTracker, key.url), x.active), Step(Count(perHash, key.ih), x.active);
    var e := Told(d, key, x, n);
    forall url ensures TrackerRight(e, SetCount(perTracker, key.url, t), url) {
      assert TrackerRight(d, perTracker, url);
      ActiveOnAfter(d, key, x, n, url);
    }
    forall ih ensures HashRight(e, SetCount(perHash, key.ih, n), ih) {
      assert HashRight(d, perHash, ih);
      ActiveForAfter(d, key, x, n, ih);
    }
    forall k ensures RecordRight(e, SetCount(perHash, key.ih, n), k) {
      assert RecordRight(d, perHash, k);
    }
  }

  lemma StartedData(d: map<Key, Input>, key: Key, x: Input, n: nat, d1: map<Key, Input>, d2: map<Key, Input>)
    requires key in d && Same(d[key := x], d1) && Same(Tagged(d1, Of(d1, key.ih), n), d2)
    ensures Same(Told(d, key, x, n), d2)
  {
    assert Of(d1, key.ih) == Of(d, key.ih);
  }

  lemma FinishedData(d: map<Key, Input>, key: Key, x: Input, n: nat, d1: map<Key, Input>, y: Input, d2: map<Key, Input>)
    requires key in d && Same(Tagged(d, Of(d, key.ih), n), d1) && Same(d1[key := y], d2)
    requires y == x.(infohashActive := n, overdue := y.overdue)
    ensures Same(Told(d, key, x, n), d2)
  {
    assert key in Of(d, key.ih);
  }

  // ---- The next announce -------------------------------------------------------------------------

  ghost predicate IsFirst(heads: map<Url, Head>, url: Url) {
    url in heads && forall u <- heads :: u != url ==> HeadCompare(heads[url], heads[u]) < 0
  }

  predicate Allowed(h: Head) { !h.input.active && h.requests < MAX_CONCURRENT_PER_TRACKER }

  /** An announce is due to be dispatched exactly when one is overdue, inactive and within the limit at
      a tracker with the fewest announces in flight. */
  lemma FirstIsDue(heads: map<Url, Head>, url: Url)
    requires IsFirst(heads, url)
    ensures Allowed(heads[url]) && heads[url].input.overdue <==>
              exists u :: u in heads && !heads[u].input.active && heads[u].requests < 2 && heads[u].input.overdue
                          && forall v <- heads :: heads[u].requests <= heads[v].requests
  {
    if Allowed(heads[url]) && heads[url].input.overdue {
      assert forall v <- heads :: heads[url].requests <= heads[v].requests;
    }
    if u :| u in heads && Allowed(heads[u]) && heads[u].input.overdue
            && forall v <- heads :: heads[u].requests <= heads[v].requests
    {
      assert heads[u].requests <= heads[url].requests;
      assert u != url ==> HeadCompare(heads[url], heads[u]) < 0;
    }
  }

  lemma TaggedNone(d: map<Key, Input>, n: nat)
    ensures Same(Tagged(d, {}, n), d)
  {
  }

  lemma TaggedAlready(d: map<Key, Input>, ih: InfoHash, n: nat, keys: set<Key>)
    requires keys == set k | k in d && k.ih == ih && d[k].infohashActive != n
    ensures Tagged(d, keys, n) == Tagged(d, Of(d, ih), n)
  {
  }

  lemma TagOne(d0: map<Key, Input>, done: set<Key>, k: Key, n: nat, d: map<Key, Input>, e: map<Key, Input>)
    requires k in d0 && Same(Tagged(d0, done, n), d) && k in d && Same(d[k := d[k].(infohashActive := n)], e)
    ensures Same(Tagged(d0, done + {k}, n), e)
  {
  }

  // The torrent's part of a record comes from another.
  function WithTorrent(x: Input, t: Input): Input {
    x.(tracked := t.tracked, wantPeers := t.wantPeers, needData := t.needData, webseeds := t.webseeds)
  }

  function Idle(d: map<Key, Input>): set<Key> { set k | k in d && !d[k].active }

  lemma Reversed(a: Head, b: Head)
    requires a.key != b.key
    ensures HeadCompare(a, b) < 0 <==> !(HeadCompare(b, a) < 0)
  {
    HeadsOrdered(a, b, Head(0, Key(a.key.url + b.key.url + 1, 0), a.input));
  }

  lemma OneFirst(heads: map<Url, Head>, a: Url, b: Url)
    requires IsFirst(heads, a) && IsFirst(heads, b) && (a != b ==> heads[a].key != heads[b].key)
    ensures a == b
  {
    if a != b {
      Reversed(heads[a], heads[b]);
    }
  }

  lemma OverdueAside(d: map<Key, Input>, key: Key, x: Input, y: Input, e: map<Key, Input>)
    requires Same(d[key := x], e) && y == x.(overdue := y.overdue)
    ensures Same(d[key := y], e)
  {
  }

  lemma CountsAdded(d: map<Key, Input>, perTracker: map<Url, nat>, perHash: map<InfoHash, nat>, key: Key, x: Input)
    requires CountsRight(d, perTracker, perHash) && key !in d && !x.active && x.infohashActive == Count(perHash, key.ih)
    ensures CountsRight(d[key := x], perTracker, perHash)
  {
    var e := d[key := x];
    forall url ensures TrackerRight(e, perTracker, url) {
      assert TrackerRight(d, perTracker, url) && ActiveOn(e, url) == ActiveOn(d, url);
    }
    forall ih ensures HashRight(e, perHash, ih) {
      assert HashRight(d, perHash, ih) && ActiveFor(e, ih) == ActiveFor(d, ih);
    }
    forall k ensures RecordRight(e, perHash, k) {
      assert RecordRight(d, perHash, k) && RecordRight(d, perHash, key);
    }
  }

  lemma CountsSynced(d: map<Key, Input>, perTracker: map<Url, nat>, perHash: map<InfoHash, nat>, key: Key, x: Input)
    requires CountsRight(d, perTracker, perHash) && key in d
    requires x.active == d[key].active && x.infohashActive == d[key].infohashActive
    ensures CountsRight(d[key := x], perTracker, perHash)
  {
    var e := d[key := x];
    forall url ensures TrackerRight(e, perTracker, url) {
      assert TrackerRight(d, perTracker, url) && ActiveOn(e, url) == ActiveOn(d, url);
    }
    forall ih ensures HashRight(e, perHash, ih) {
      assert HashRight(d, perHash, ih) && ActiveFor(e, ih) == ActiveFor(d, ih);
    }
    forall k ensures RecordRight(e, perHash, k) {
      assert RecordRight(d, perHash, k) && RecordRight(d, perHash, key);
    }
  }

  ghost predicate NothingDue(heads: map<Url, Head>) {
    forall url :: IsFirst(heads, url) ==> !(Allowed(heads[url]) && heads[url].input.overdue)
  }

  ghost predicate SameActive(d: map<Key, Input>, e: map<Key, Input>, keys: set<Key>) {
    d.Keys == e.Keys && forall k <- d :: e[k].when == d[k].when && e[k].active == (d[k].active || k in keys)
  }

  // Idle announces that are due by the clock.
  ghost predicate Due(d: map<Key, Input>, keys: set<Key>, now: Time) {
    forall k <- keys :: k in d && !d[k].active && d[k].when <= now
  }

  lemma DueMore(d: map<Key, Input>, e: map<Key, Input>, keys: set<Key>, k: Key, now: Time, later: Time)
    requires Due(d, keys, now) && now <= later && SameActive(d, e, keys)
    requires k in e && !e[k].active && e[k].when <= later
    ensures Due(d, keys + {k}, later)
  {
  }

  lemma StartedActive(d: map<Key, Input>, e: map<Key, Input>, f: map<Key, Input>, key: Key, n: nat)
    requires Same(d, e) && key in e && Same(Told(e, key, e[key].(active := true), n), f)
    ensures SameActive(d, f, {key})
  {
  }

  lemma SameStaysActive(d: map<Key, Input>, e: map<Key, Input>)
    requires Same(d, e)
    ensures SameActive(d, e, {})
  {
  }

  lemma DispatchedMore(d: map<Key, Input>, e: map<Key, Input>, f: map<Key, Input>, keys: set<Key>, more: set<Key>)
    requires SameActive(d, e, keys) && SameActive(e, f, more)
    ensures SameActive(d, f, keys + more)
    ensures Idle(f) == Idle(e) - more
  {
  }

  datatype Dispatched = NoneDue | Started(key: Key)

  lemma NotDue(d: map<Key, Input>, heads: map<Url, Head>, perTracker: map<Url, nat>, url: Url, next: Found)
    requires HeadsRight(d, heads, perTracker, {}) && IsFirst(heads, url)
    requires next.Some? ==> IsFirst(heads, next.head.key.url) && heads[next.head.key.url] == next.head && !next.head.input.overdue
    requires next.Nothing? ==> heads == map[] || exists u :: IsFirst(heads, u) && !Allowed(heads[u])
    ensures !(Allowed(heads[url]) && heads[url].input.overdue)
  {
    var u: Url;
    if next.Some? {
      u := next.head.key.url;
    } else {
      u :| IsFirst(heads, u) && !Allowed(heads[u]);
    }
    assert HeadRight(d, heads, perTracker, url) && HeadRight(d, heads, perTracker, u);
    OneFirst(heads, url, u);
  }

  datatype Event =
    | Add(added: Key, torrent: Input)
    | Change(changed: Key, input: Input)
    | Finished(finished: Key, state: Input)
    | Timer

  datatype Found = Nothing | Some(head: Head)

  // One announce more or less is in flight, and nothing else is.
  ghost predicate Flips(d: map<Key, Input>, e: map<Key, Input>, key: Key, active: bool) {
    && d.Keys == e.Keys && key in d && d[key].active != active && e[key].active == active
    && forall k <- d :: k != key ==> e[k].active == d[k].active && e[k].when == d[k].when
  }

  // What a record takes over from its torrent when its announce is over.
  ghost predicate Refreshed(x: Input, torrent: Input, y: Input) {
    && y.tracked == torrent.tracked && y.wantPeers == torrent.wantPeers
    && y.needData == torrent.needData && y.webseeds == torrent.webseeds
    && y.event == x.event && y.when == x.when
  }

  lemma ToldFlips(d: map<Key, Input>, key: Key, x: Input, n: nat, e: map<Key, Input>)
    requires key in d && d[key].active != x.active && Same(Told(d, key, x, n), e)
    ensures Flips(d, e, key, x.active)
    ensures e[key].tracked == x.tracked && e[key].wantPeers == x.wantPeers && e[key].needData == x.needData
    ensures e[key].webseeds == x.webseeds && e[key].event == x.event && e[key].when == x.when
  {
    assert Agree(Told(d, key, x, n)[key], e[key]);
  }

  // The table after an event, but for overdue flags and the copies of counts.
  ghost predicate Handled(d: map<Key, Input>, e: Event, d': map<Key, Input>, now: Time) {
    match e
    case Add(key, torrent) =>
      if key in d then d' == d
      else
        && d'.Keys == d.Keys + {key} && !d'[key].active && d'[key].when == torrent.when && d'[key].event == torrent.event
        && forall k <- d :: d'[k].active == d[k].active && d'[k].when == d[k].when
    case Change(key, input) =>
      if key !in d then d' == d
      else
        && d'.Keys == d.Keys && d'[key].active == d[key].active && d'[key].when == input.when && d'[key].event == input.event
        && forall k <- d :: k != key ==> d'[k].active == d[k].active && d'[k].when == d[k].when
    case Finished(key, torrent) =>
      if key !in d || !d[key].active then d' == d else Flips(d, d', key, false) && Refreshed(d[key], torrent, d'[key])
    case Timer => exists started :: SameActive(d, d', started) && Due(d, started, now)
  }

  ghost predicate HandledAt(log: seq<map<Key, Input>>, events: seq<Event>, i: nat, now: Time)
    requires i < |events| && i + 1 < |log|
  {
    Handled(log[i], events[i], log[i + 1], now)
  }

  lemma AddHandled(d: map<Key, Input>, key: Key, torrent: Input, n: nat, d': map<Key, Input>, now: Time)
    requires key !in d && Same(d[key := torrent.(infohashActive := n, active := false)], d')
    ensures Handled(d, Add(key, torrent), d', now)
  {
    var x := torrent.(infohashActive := n, active := false);
    assert Agree(d[key := x][key], d'[key]);
    forall k | k in d ensures d'[k].active == d[k].active && d'[k].when == d[k].when {
      assert Agree(d[key := x][k], d'[k]);
    }
  }

  lemma ChangeHandled(d: map<Key, Input>, key: Key, input: Input, d': map<Key, Input>, now: Time)
    requires key in d && Same(d[key := input.(infohashActive := d[key].infohashActive, active := d[key].active)], d')
    ensures Handled(d, Change(key, input), d', now)
  {
    var x := input.(infohashActive := d[key].infohashActive, active := d[key].active);
    assert Agree(d[key := x][key], d'[key]);
    forall k | k in d && k != key ensures d'[k].active == d[k].active && d'[k].when == d[k].when {
      assert Agree(d[key := x][k], d'[k]);
    }
  }

  class Dispatcher {
    // What the clock shows at each reading, and how often it was read.
    const clock: nat -> Time
    var tick: nat
    var data: map<Key, Input>
    var heads: map<Url, Head>
    var perTracker: map<Url, nat>
    var perHash: map<InfoHash, nat>

    ghost predicate Heads(stale: set<Url>)
      reads this
    {
      GoesForward(clock) && HeadsRight(data, heads, perTracker, stale)
    }

    ghost predicate Valid()
      reads this
    {
      Heads({}) && CountsRight(data, perTracker, perHash)
    }

    constructor (clock: nat -> Time)
      requires GoesForward(clock)
      ensures Valid() && data == map[] && this.clock == clock
    {
      this.clock, tick := clock, 0;
      data, heads, perTracker, perHash := map[], map[], map[], map[];
    }

    method GetTrackerNextAnnounce(url: Url) returns (best: Found)
      ensures best.Nothing? ==> forall k <- data :: k.url != url
      ensures best.Some? ==>
                && best.head.key in data && best.head.key.url == url && best.head.input == data[best.head.key]
                && forall k <- data :: k.url == url && k != best.head.key ==>
                     AnnounceIndexCompare(best.head.key, best.head.input, k, data[k]) < 0
    {
      best := Nothing;
      var todo := data.Keys;
      while todo != {}
        invariant todo <= data.Keys
        invariant best.Nothing? ==> forall k <- data :: k !in todo ==> k.url != url
        invariant best.Some? ==>
                    && best.head.key in data && best.head.key !in todo
                    && best.head.key.url == url && best.head.input == data[best.head.key]
                    && forall k <- data :: k !in todo && k.url == url && k != best.head.key ==>
                         AnnounceIndexCompare(best.head.key, best.head.input, k, data[k]) < 0
        decreases |todo|
      {
        var k :| k in todo;
        todo := todo - {k};
        if k.url == url {
          if best.Nothing? {
            best := Some(Head(0, k, data[k]));
          } else if AnnounceIndexCompare(k, data[k], best.head.key, best.head.input) < 0 {
            NewBest(data, todo, url, best.head.key, k);
            best := Some(Head(0, k, data[k]));
          } else {
            Opposite(best.head.key, best.head.input, k, data[k]);
          }
        }
      }
    }

    // ---- Triggers --------------------------------------------------------------------------------

    method ReadClock() returns (now: Time)
      requires GoesForward(clock)
      modifies this`tick
      ensures tick == old(tick) + 1 && now == clock(old(tick)) <= clock(tick)
    {
      now := clock(tick);
      tick := tick + 1;
      assert NotAfter(clock, old(tick), tick);
    }

    /** Brings one tracker's head up to date, then the timer, which may in turn mark announces overdue
        and bring further heads up to date. */
    method UpdateTrackerAnnounceHead(url: Url)
      requires Heads({url})
      modifies this`data, this`heads, this`tick
      ensures Heads({}) && Same(old(data), data) && tick >= old(tick)
      ensures AllTimely(data, clock(old(tick)), clock(tick))
      ensures Changes(data, clock(tick)) <= Changes(old(data), clock(old(tick)))
      decreases Changes(data, clock(tick)), 2
    {
      var best := GetTrackerNextAnnounce(url);
      heads := if best.Some? then heads[url := best.head.(requests := Count(perTracker, url))] else heads - {url};
      forall u ensures HeadRight(data, heads, perTracker, u) {
        assert u != url ==> old(HeadRight(data, heads, perTracker, u));
      }
      UpdateOverdue();
    }

    /** Ends although it calls itself through the triggers, with the clock read anew for every record.
        Afterwards what was due at the start is overdue, and what is overdue is due by now. */
    method UpdateOverdue()
      requires Heads({})
      modifies this`data, this`heads, this`tick
      ensures Heads({}) && Same(old(data), data) && tick >= old(tick)
      ensures AllTimely(data, clock(old(tick)), clock(tick))
      ensures Changes(data, clock(tick)) <= Changes(old(data), clock(old(tick)))
      decreases Changes(data, clock(tick)), 1
    {
      ghost var d0, t0 := data, tick;
      var now := ReadClock();
      FewerWithTime(data, now, clock(tick));
      var todo := set k | k in data && InScan(k, data[k], now);
      ScannedTimely(data, todo, now, clock(tick));
      while todo != {}
        invariant Heads({}) && Same(d0, data) && tick > t0
        invariant todo <= data.Keys && TimelyBut(data, todo, now, clock(tick))
        invariant Changes(data, clock(tick)) <= Changes(d0, now)
        decreases |todo|
      {
        var key :| key in todo;
        ghost var d, t := data, tick;
        assert NotAfter(clock, t0, t);
        MarkOverdue(key);
        assert NotAfter(clock, t, tick);
        SameTransitive(d0, d, data);
        MarkedTimely(d, data, todo, key, now, clock(t), clock(tick));
        todo := todo - {key};
      }
    }

    method MarkOverdue(key: Key)
      requires Heads({}) && key in data
      modifies this`data, this`heads, this`tick
      ensures Heads({}) && Same(old(data), data) && tick >= old(tick)
      ensures Marked(old(data), data, key, clock(old(tick)), clock(tick))
      ensures Changes(data, clock(tick)) <= Changes(old(data), clock(old(tick)))
      decreases Changes(data, clock(tick)), 0
    {
      ghost var d := data;
      var now := ReadClock();
      var x := data[key].(overdue := data[key].when <= now);
      if x != data[key] {
        ChangeMade(d, key, now, clock(tick));
        HeadsAfterUpdate(d, heads, perTracker, key, x);
        data := data[key := x];
        ghost var e, t := data, tick;
        UpdateTrackerAnnounceHead(key.url);
        SameTransitive(d, e, data);
        AllMarked(d, data, key, now, clock(t), clock(tick));
      } else {
        FewerWithTime(d, now, clock(tick));
        AlreadyMarked(d, key, now, clock(tick));
      }
    }

    method SetRecord(key: Key, x: Input)
      requires Heads({})
      modifies this`data, this`heads, this`tick
      ensures Heads({}) && Same(old(data)[key := x], data) && tick >= old(tick)
      ensures key in old(data) && x == old(data)[key] ==> data == old(data)
    {
      if key !in data || data[key] != x {
        HeadsAfterUpdate(data, heads, perTracker, key, x);
        data := data[key := x];
        UpdateTrackerAnnounceHead(key.url);
      } else {
        assert data[key := x] == data;
      }
    }

    // The count of a torrent's announces changed: every record of the torrent gets the new count.
    method RetagInfohash(ih: InfoHash, n: nat)
      requires Heads({})
      requires forall j, k :: j in data && k in data && j.ih == ih && k.ih == ih ==>
                 data[j].infohashActive == data[k].infohashActive
      modifies this`data, this`heads, this`tick
      ensures Heads({}) && Same(Tagged(old(data), Of(old(data), ih), n), data) && tick >= old(tick)
    {
      var keys := set k | k in data && k.ih == ih && data[k].infohashActive != n;
      ghost var d := data;
      RetagKeys(keys, n);
      TaggedAlready(d, ih, n, keys);
    }

    method RetagKeys(keys: set<Key>, n: nat)
      requires Heads({}) && keys <= data.Keys
      modifies this`data, this`heads, this`tick
      ensures Heads({}) && Same(Tagged(old(data), keys, n), data) && tick >= old(tick)
    {
      ghost var done, d0, t0 := {}, data, tick;
      var todo := keys;
      TaggedNone(d0, n);
      while todo != {}
        invariant todo + done == keys && Heads({}) && tick >= t0
        invariant keys <= d0.Keys && Same(Tagged(d0, done, n), data)
        decreases |todo|
      {
        var key :| key in todo;
        RetagOne(key, n, d0, done);
        todo, done := todo - {key}, done + {key};
      }
      assert done == keys;
    }

    method RetagOne(key: Key, n: nat, ghost d0: map<Key, Input>, ghost done: set<Key>)
      requires Heads({}) && key in d0 && Same(Tagged(d0, done, n), data)
      modifies this`data, this`heads, this`tick
      ensures Heads({}) && Same(Tagged(d0, done + {key}, n), data) && tick >= old(tick)
    {
      ghost var d := data;
      SetRecord(key, data[key].(infohashActive := n));
      TagOne(d0, done, key, n, d, data);
    }

    // ---- Operations ------------------------------------------------------------------------------

    method SetHashCount(ih: InfoHash, n: nat)
      requires Heads({})
      requires forall j, k :: j in data && k in data && j.ih == ih && k.ih == ih ==>
                 data[j].infohashActive == data[k].infohashActive
      modifies this`data, this`heads, this`tick, this`perHash
      ensures Heads({}) && Same(Tagged(old(data), Of(old(data), ih), n), data) && tick >= old(tick)
      ensures perHash == SetCount(old(perHash), ih, n)
    {
      perHash := SetCount(perHash, ih, n);
      RetagInfohash(ih, n);
    }

    method SetTrackerCount(url: Url, n: nat)
      requires Heads({}) && n <= MAX_CONCURRENT_PER_TRACKER
      modifies this`data, this`heads, this`tick, this`perTracker
      ensures Heads({}) && Same(old(data), data) && tick >= old(tick) && perTracker == SetCount(old(perTracker), url, n)
    {
      perTracker := SetCount(perTracker, url, n);
      forall u ensures u !in {url} ==> HeadRight(data, heads, perTracker, u) {
        assert old(HeadRight(data, heads, perTracker, u));
      }
      UpdateTrackerAnnounceHead(url);
    }

    // The tables after an announce started or finished, given the new record and the two counts.
    ghost predicate Arrived(target: map<Key, Input>, perTracker': map<Url, nat>, perHash': map<InfoHash, nat>)
      reads this
    {
      && Heads({}) && Same(target, data) && perTracker == perTracker' && perHash == perHash'
    }

    /** Dispatching an idle announce below the tracker's limit keeps every table right. */
    method StartAnnounce(key: Key)
      requires Valid() && key in data && !data[key].active
      requires Count(perTracker, key.url) < MAX_CONCURRENT_PER_TRACKER
      modifies this
      ensures Valid() && tick >= old(tick)
      ensures Same(Told(old(data), key, old(data)[key].(active := true), Count(old(perHash), key.ih) + 1), data)
      ensures Flips(old(data), data, key, true)
    {
      var x, n, t := data[key].(active := true), Count(perHash, key.ih) + 1, Count(perTracker, key.url) + 1;
      ghost var target := Told(data, key, x, n);
      assert CountsRight(target, SetCount(perTracker, key.url, t), SetCount(perHash, key.ih, n)) by {
        CountsAfter(data, perTracker, perHash, key, x);
      }
      OneHash(data, perTracker, perHash, key);
      Start(key, x, n, t);
      CountsKept(target, data, perTracker, perHash);
      ToldFlips(old(data), key, x, n, data);
    }

    method Start(key: Key, x: Input, n: nat, t: nat)
      requires Heads({}) && key in data && t <= MAX_CONCURRENT_PER_TRACKER && x == data[key].(active := true)
      requires forall k <- data :: k.ih == key.ih ==> data[k].infohashActive == data[key].infohashActive
      modifies this
      ensures tick >= old(tick)
      ensures Arrived(Told(old(data), key, x, n), SetCount(old(perTracker), key.url, t), SetCount(old(perHash), key.ih, n))
    {
      ghost var d := data;
      SetRecord(key, x);
      ghost var d1 := data;
      SetHashCount(key.ih, n);
      ghost var d2 := data;
      StartedData(d, key, x, n, d1, d2);
      SetTrackerCount(key.url, t);
      SameTransitive(Told(d, key, x, n), d2, data);
    }

    method FinishedAnnounce(key: Key, torrent: Input)
      requires Valid() && key in data && data[key].active
      modifies this
      ensures Valid() && tick >= old(tick)
      ensures Count(old(perHash), key.ih) >= 1
      ensures Same(Told(old(data), key, WithTorrent(old(data)[key], torrent).(active := false),
                        Count(old(perHash), key.ih) - 1), data)
      ensures Flips(old(data), data, key, false) && Refreshed(old(data)[key], torrent, data[key])
    {
      ghost var x := WithTorrent(data[key], torrent).(active := false);
      var n, t := Count(perHash, key.ih) as int - 1, Count(perTracker, key.url) as int - 1;
      assert n >= 0 && t >= 0 by {
        CountsAfter(data, perTracker, perHash, key, x);
      }
      ghost var target := Told(data, key, x, n);
      assert CountsRight(target, SetCount(perTracker, key.url, t), SetCount(perHash, key.ih, n)) by {
        CountsAfter(data, perTracker, perHash, key, x);
      }
      OneHash(data, perTracker, perHash, key);
      Finish(key, torrent, n, t, x);
      CountsKept(target, data, perTracker, perHash);
      ToldFlips(old(data), key, x, n, data);
    }

    method Finish(key: Key, torrent: Input, n: nat, t: nat, ghost x: Input)
      requires Heads({}) && key in data && t <= MAX_CONCURRENT_PER_TRACKER
      requires x == WithTorrent(data[key], torrent).(active := false)
      requires forall k <- data :: k.ih == key.ih ==> data[k].infohashActive == data[key].infohashActive
      modifies this
      ensures tick >= old(tick)
      ensures Arrived(Told(old(data), key, x, n), SetCount(old(perTracker), key.url, t), SetCount(old(perHash), key.ih, n))
    {
      ghost var d := data;
      SetHashCount(key.ih, n);
      ghost var d1 := data;
      assert key in Of(d, key.ih);
      var y := WithTorrent(data[key], torrent).(active := false);
      SetRecord(key, y);
      ghost var d2 := data;
      FinishedData(d, key, x, n, d1, y, d2);
      SetTrackerCount(key.url, t);
      SameTransitive(Told(d, key, x, n), d2, data);
    }

    method AddKey(key: Key, torrent: Input)
      requires Valid()
      modifies this
      ensures Valid() && tick >= old(tick)
      ensures key in old(data) ==> data == old(data)
      ensures key !in old(data) ==>
                Same(old(data)[key := torrent.(infohashActive := Count(perHash, key.ih), active := false)], data)
    {
      if key in data {
        return;
      }
      var x := torrent.(infohashActive := Count(perHash, key.ih), overdue := false, active := false);
      CountsAdded(data, perTracker, perHash, key, x);
      ghost var d := data;
      SetRecord(key, x);
      CountsKept(d[key := x], data, perTracker, perHash);
      OverdueAside(d, key, x, torrent.(infohashActive := x.infohashActive, active := false), data);
    }

    // New announce state or torrent state for a record; the derived fields are left alone.
    method Sync(key: Key, input: Input)
      requires Valid() && key in data
      modifies this
      ensures Valid() && tick >= old(tick)
      ensures Same(old(data)[key := input.(infohashActive := old(data)[key].infohashActive,
                                           active := old(data)[key].active)], data)
    {
      var x := input.(infohashActive := data[key].infohashActive, overdue := data[key].overdue, active := data[key].active);
      CountsSynced(data, perTracker, perHash, key, x);
      ghost var d := data;
      SetRecord(key, x);
      CountsKept(d[key := x], data, perTracker, perHash);
      OverdueAside(d, key, x, input.(infohashActive := x.infohashActive, active := x.active), data);
    }

    method GetNextAnnounce() returns (next: Found)
      requires Valid()
      modifies this`data, this`heads, this`tick
      ensures Valid() && Same(old(data), data) && tick >= old(tick)
      ensures AllTimely(data, clock(old(tick)), clock(tick))
      ensures next.Some? ==> IsFirst(heads, next.head.key.url) && heads[next.head.key.url] == next.head && Allowed(next.head)
      ensures next.Nothing? ==> heads == map[] || exists url :: IsFirst(heads, url) && !Allowed(heads[url])
    {
      UpdateOverdue();
      CountsKept(old(data), data, perTracker, perHash);
      if heads == map[] {
        return Nothing;
      }
      forall u | u in heads ensures heads[u].key.url == u {
        assert HeadRight(data, heads, perTracker, u);
      }
      var url := FirstHead();
      next := if Allowed(heads[url]) then Some(heads[url]) else Nothing;
    }

    method FirstHead() returns (url: Url)
      requires heads != map[] && forall u <- heads :: heads[u].key.url == u
      ensures IsFirst(heads, url)
    {
      url :| url in heads;
      var todo := heads.Keys - {url};
      while todo != {}
        invariant url in heads && url !in todo && todo <= heads.Keys
        invariant forall u <- heads :: u !in todo && u != url ==> HeadCompare(heads[url], heads[u]) < 0
        decreases |todo|
      {
        var v :| v in todo;
        todo := todo - {v};
        Reversed(heads[v], heads[url]);
        if HeadCompare(heads[v], heads[url]) < 0 {
          forall u | u in heads && u !in todo && u != v ensures HeadCompare(heads[v], heads[u]) < 0 {
            if u != url {
              HeadsOrdered(heads[v], heads[url], heads[u]);
            }
          }
          url := v;
        }
      }
    }

    // Starts the best candidate if it is due.
    method DispatchOne() returns (started: Dispatched)
      requires Valid()
      modifies this
      ensures Valid() && tick >= old(tick)
      ensures started.NoneDue? ==>
                SameActive(old(data), data, {}) && AllTimely(data, clock(old(tick)), clock(tick)) && NothingDue(heads)
      ensures started.Started? ==>
                && started.key in old(data) && !old(data)[started.key].active
                && old(data)[started.key].when <= clock(tick)
                && SameActive(old(data), data, {started.key})
    {
      ghost var d := data;
      var next := GetNextAnnounce();
      ghost var e, t := data, tick;
      if next.Nothing? || !next.head.input.overdue {
        forall url | IsFirst(heads, url) ensures !(Allowed(heads[url]) && heads[url].input.overdue) {
          NotDue(data, heads, perTracker, url, next);
        }
        SameStaysActive(d, e);
        return NoneDue;
      }
      var key := next.head.key;
      assert HeadRight(data, heads, perTracker, key.url);
      // The announce is checked against the clock once more before it starts.
      assert Timely(data[key], clock(old(tick)), clock(t));
      var now := ReadClock();
      assert data[key].when <= now && !data[key].active;
      ghost var n := Count(perHash, key.ih) + 1;
      StartAnnounce(key);
      StartedActive(d, e, data, key, n);
      assert NotAfter(clock, t, tick);
      started := Started(key);
    }

    /** Starts announces while the best candidate is due: each was idle and due by the clock, and the
        limits still hold. Afterwards none is due, in the sense of `FirstIsDue`. */
    method DispatchAnnounces() returns (started: set<Key>)
      requires Valid()
      modifies this
      ensures Valid() && tick >= old(tick) && AllTimely(data, clock(old(tick)), clock(tick)) && NothingDue(heads)
      ensures SameActive(old(data), data, started)
      ensures Due(old(data), started, clock(tick))
    {
      started := {};
      ghost var d0, t0 := data, tick;
      var more := true;
      while more
        invariant Valid() && SameActive(d0, data, started) && tick >= t0
        invariant Due(d0, started, clock(tick))
        invariant !more ==> AllTimely(data, clock(t0), clock(tick)) && NothingDue(heads)
        decreases more, |Idle(data)|
      {
        more, started := DispatchNext(started, d0, t0);
      }
    }

    method DispatchNext(started: set<Key>, ghost d0: map<Key, Input>, ghost t0: nat) returns (more: bool, started': set<Key>)
      requires Valid() && SameActive(d0, data, started) && tick >= t0 && Due(d0, started, clock(tick))
      modifies this
      ensures Valid() && SameActive(d0, data, started') && tick >= t0 && Due(d0, started', clock(tick))
      ensures if more then |Idle(data)| < |old(Idle(data))|
              else AllTimely(data, clock(t0), clock(tick)) && NothingDue(heads)
    {
      ghost var d, t := data, tick;
      var one := DispatchOne();
      assert NotAfter(clock, t0, t) && NotAfter(clock, t, tick);
      DispatchedMore(d0, d, data, started, if one.NoneDue? then {} else {one.key});
      if one.NoneDue? {
        assert started + {} == started;
        TimelySince(data, clock(t0), clock(t), clock(tick));
        return false, started;
      }
      DueMore(d0, d, started, one.key, clock(t), clock(tick));
      assert one.key in Idle(d);
      return true, started + {one.key};
    }

    // ---- Whole runs ------------------------------------------------------------------------------

    method Handle(e: Event)
      requires Valid()
      modifies this
      ensures Valid() && tick >= old(tick) && Handled(old(data), e, data, clock(tick))
      ensures e.Timer? ==> NothingDue(heads) && AllTimely(data, clock(old(tick)), clock(tick))
    {
      ghost var d := data;
      match e {
        case Add(key, torrent) =>
          AddKey(key, torrent);
          if key !in d {
            AddHandled(d, key, torrent, Count(perHash, key.ih), data, clock(tick));
          }
        case Change(key, input) =>
          if key in data {
            Sync(key, input);
            ChangeHandled(d, key, input, data, clock(tick));
          }
        case Finished(key, torrent) => if key in data && data[key].active { FinishedAnnounce(key, torrent); }
        case Timer => var started := DispatchAnnounces();
      }
    }

    /** In every run, whatever the clock shows at each reading as long as it goes forward, the table
        changes as the events say, announce counts per tracker and per torrent are exactly the announces
        in flight, at most two per tracker, and every record has its torrent's count. */
    method Run(events: seq<Event>) returns (ghost log: seq<map<Key, Input>>, ghost times: seq<Time>)
      requires Valid()
      modifies this
      ensures |log| == |events| + 1 && |times| == |events| && log[0] == old(data) && log[|events|] == data
      ensures forall i: nat :: i < |events| ==> HandledAt(log, events, i, times[i])
      ensures forall url :: Count(perTracker, url) == |ActiveOn(data, url)| <= 2
      ensures forall ih :: Count(perHash, ih) == |ActiveFor(data, ih)|
      ensures forall k <- data :: data[k].infohashActive == |ActiveFor(data, k.ih)|
    {
      log, times := [data], [];
      for i := 0 to |events|
        invariant Valid() && |log| == i + 1 && |times| == i && log[0] == old(data) && log[i] == data
        invariant forall j: nat :: j < i ==> HandledAt(log, events, j, times[j])
      {
        ghost var before := log;
        Handle(events[i]);
        log, times := log + [data], times + [clock(tick)];
        forall j: nat | j < i + 1 ensures HandledAt(log, events, j, times[j]) {
          assert j < i ==> HandledAt(before, events, j, times[j]);
        }
      }
      forall url ensures Count(perTracker, url) == |ActiveOn(data, url)| <= MAX_CONCURRENT_PER_TRACKER {
        assert TrackerRight(data, perTracker, url);
      }
      forall ih ensures Count(perHash, ih) == |ActiveFor(data, ih)| {
        assert HashRight(data, perHash, ih);
      }
      forall k | k in data ensures data[k].infohashActive == |ActiveFor(data, k.ih)| {
        assert RecordRight(data, perHash, k) && HashRight(data, perHash, k.ih);
      }
    }
  }

  // The dispatcher after the run below: tracker 0 idle with nothing due, tracker 1 with one announce
  // in flight and another due.
  lemma PassedOver(d: map<Key, Input>, heads: map<Url, Head>, perTracker: map<Url, nat>, perHash: map<InfoHash, nat>)
    requires HeadsRight(d, heads, perTracker, {}) && CountsRight(d, perTracker, perHash)
    requires d.Keys == {Key(0, 3), Key(1, 1), Key(1, 2)}
    requires !d[Key(0, 3)].active && !d[Key(1, 1)].active && d[Key(1, 2)].active
    ensures 0 in heads && heads[0].key == Key(0, 3) && heads[0].requests == 0 && heads[0].input == d[Key(0, 3)]
    ensures 1 in heads && heads[1].key == Key(1, 1) && heads[1].requests == 1 && heads[1].input == d[Key(1, 1)]
    ensures heads.Keys == {0, 1} && IsFirst(heads, 0)
  {
    assert TrackerRight(d, perTracker, 0) && TrackerRight(d, perTracker, 1);
    assert ActiveOn(d, 0) == {} && ActiveOn(d, 1) == {Key(1, 2)};
    assert HeadRight(d, heads, perTracker, 0) && HeadRight(d, heads, perTracker, 1);
    assert Key(0, 3) in d && Key(1, 1) in d && Key(1, 2) in d;
    forall u ensures u in heads <==> u == 0 || u == 1 {
      assert HeadRight(d, heads, perTracker, u);
    }
  }

  // When each record is due, and whether its announce is in flight.
  ghost predicate Has(d: map<Key, Input>, k: Key, when: Time, active: bool) {
    k in d && d[k].when == when && d[k].active == active
  }

  lemma AddedHas(d: map<Key, Input>, key: Key, x: Input, e: map<Key, Input>)
    requires Same(d[key := x], e)
    ensures e.Keys == d.Keys + {key} && Has(e, key, x.when, x.active)
    ensures forall k <- d :: k != key ==> Has(e, k, d[k].when, d[k].active)
  {
  }

  method AddDue(d: Dispatcher, key: Key, when: Time)
    requires d.Valid() && key !in d.data
    modifies d
    ensures d.Valid() && d.data.Keys == old(d.data).Keys + {key} && Has(d.data, key, when, false)
    ensures forall k <- old(d.data) :: Has(d.data, k, old(d.data)[k].when, old(d.data)[k].active)
  {
    ghost var a := d.data;
    var x := Input(true, true, true, false, -4, when, 0, false, false);
    d.AddKey(key, x);
    AddedHas(a, key, x.(infohashActive := Count(d.perHash, key.ih), active := false), d.data);
  }

  // A record due later on tracker 0, and two due now on tracker 1.
  method ThreeRecords() returns (d: Dispatcher)
    ensures fresh(d) && d.Valid() && d.data.Keys == {Key(0, 3), Key(1, 1), Key(1, 2)} && d.clock == STOPPED
    ensures Has(d.data, Key(0, 3), 5, false) && Has(d.data, Key(1, 1), 0, false) && Has(d.data, Key(1, 2), 0, false)
  {
    d := new Dispatcher(STOPPED);
    AddDue(d, Key(0, 3), 5);
    AddDue(d, Key(1, 1), 0);
    AddDue(d, Key(1, 2), 0);
  }

  const STOPPED: nat -> Time := i => 0

  /** So an overdue announce within its tracker's limit can be passed over: in this run tracker 1 has
      one due and a slot free, but idle tracker 0 comes first and has nothing due, so nothing starts. */
  method DueButPassedOver() returns (heads: map<Url, Head>, next: Found)
    ensures 0 in heads && 1 in heads && IsFirst(heads, 0) && !heads[0].input.overdue && next == Some(heads[0])
    ensures Allowed(heads[1]) && heads[1].input.overdue
  {
    var d := OneInFlight();
    ghost var b := d.data;
    next := d.GetNextAnnounce();
    SameStaysActive(b, d.data);
    heads := d.heads;
    PassedOver(d.data, heads, d.perTracker, d.perHash);
    assert Timely(d.data[Key(0, 3)], 0, 0) && Timely(d.data[Key(1, 1)], 0, 0);
    FirstFound(heads, next);
  }

  // The same with the second announce of tracker 1 started.
  method OneInFlight() returns (d: Dispatcher)
    ensures fresh(d) && d.Valid() && d.data.Keys == {Key(0, 3), Key(1, 1), Key(1, 2)} && d.clock == STOPPED
    ensures Has(d.data, Key(0, 3), 5, false) && Has(d.data, Key(1, 1), 0, false) && d.data[Key(1, 2)].active
  {
    d := ThreeRecords();
    assert TrackerRight(d.data, d.perTracker, 1) && ActiveOn(d.data, 1) == {};
    d.StartAnnounce(Key(1, 2));
  }

  lemma FirstFound(heads: map<Url, Head>, next: Found)
    requires IsFirst(heads, 0) && Allowed(heads[0]) && heads.Keys == {0, 1} && heads[0].key != heads[1].key
    requires next.Some? ==> IsFirst(heads, next.head.key.url) && heads[next.head.key.url] == next.head
    requires next.Nothing? ==> exists url :: IsFirst(heads, url) && !Allowed(heads[url])
    ensures next == Some(heads[0])
  {
    if next.Some? {
      OneFirst(heads, 0, next.head.key.url);
    } else {
      var u :| IsFirst(heads, u) && !Allowed(heads[u]);
      OneFirst(heads, 0, u);
    }
  }
}
