/**
 * Planning which torrents to delete from the disk cache. Eviction takes a whole torrent, so a file
 * worth keeping holds its torrent, and what a torrent frees is counted once.
 */
module Eviction {
  import opened Basics

  type Hash = nat

  datatype Option<T> = None | Some(value: T)

  // An episode key, with the number it reads as, if any.
  datatype EpKey = EpKey(text: nat, number: Option<int>)

  datatype Entry = Entry(
    hash: Hash,
    bytes: nat,
    anime: Option<int>,
    ep: EpKey,
    pinned: bool,
    kept: bool,
    isProtected: bool,
    complete: bool,
    lastPlayed: int)

  // The episode someone is in the middle of.
  datatype Watching = Watching(anime: int, epText: nat)

  // ---- Held torrents -----------------------------------------------------------------------------

  // A file that must stay: pinned, kept, in progress, or unfinished and not stalled.
  predicate Holds(e: Entry, stalled: set<Hash>, watching: Watching) {
    || e.pinned || e.kept
    || (e.anime == Some(watching.anime) && e.ep.text == watching.epText)
    || (!e.complete && e.hash !in stalled)
  }

  ghost predicate Held(entries: seq<Entry>, stalled: set<Hash>, watching: Watching, h: Hash) {
    exists e :: e in entries && e.hash == h && Holds(e, stalled, watching)
  }

  function HeldSet(entries: seq<Entry>, stalled: set<Hash>, watching: Watching): set<Hash> {
    set e | e in entries && Holds(e, stalled, watching) :: e.hash
  }

  // ---- Sorting -----------------------------------------------------------------------------------

  // A torrent is as recent as its most recently played file.
  function Latest(entries: seq<Entry>, h: Hash): int
    decreases |entries|
  {
    if entries == [] then 0
    else
      var e := entries[|entries| - 1];
      var l := Latest(entries[..|entries| - 1], h);
      if e.hash == h then Max(l, e.lastPlayed) else l
  }

  /** The age of a torrent is the latest time any of its files was played, and 0 if none ever was. */
  lemma {:induction false} LatestIs(entries: seq<Entry>, h: Hash)
    ensures Latest(entries, h) >= 0 && forall e <- entries :: e.hash == h ==> e.lastPlayed <= Latest(entries, h)
    ensures Latest(entries, h) == 0 || exists e :: e in entries && e.hash == h && e.lastPlayed == Latest(entries, h)
    decreases |entries|
  {
    if entries != [] {
      var init, last := entries[..|entries| - 1], entries[|entries| - 1];
      LatestIs(init, h);
      assert entries == init + [last] && last in entries;
      assert forall e <- init :: e in entries;
    }
  }

  function LatestMap(entries: seq<Entry>): map<Hash, int> {
    map h | h in (set e | e in entries :: e.hash) :: Latest(entries, h)
  }

  function Age(latest: map<Hash, int>, e: Entry): int { if e.hash in latest then latest[e.hash] else 0 }

  ghost predicate Sorted(s: seq<Entry>, latest: map<Hash, int>) {
    forall i, j :: 0 <= i < j < |s| ==> Age(latest, s[i]) <= Age(latest, s[j])
  }

  function OfAge(s: seq<Entry>, latest: map<Hash, int>, a: int): seq<Entry>
    decreases |s|
  {
    if s == [] then []
    else
      var rest := OfAge(s[..|s| - 1], latest, a);
      if Age(latest, s[|s| - 1]) == a then rest + [s[|s| - 1]] else rest
  }

  lemma OfAgeOne(s: seq<Entry>, e: Entry, latest: map<Hash, int>, a: int)
    ensures OfAge(s + [e], latest, a) == if Age(latest, e) == a then OfAge(s, latest, a) + [e] else OfAge(s, latest, a)
  {
    assert (s + [e])[..|s|] == s;
  }

  lemma {:induction false} OfAgeConcat(s: seq<Entry>, t: seq<Entry>, latest: map<Hash, int>, a: int)
    ensures OfAge(s + t, latest, a) == OfAge(s, latest, a) + OfAge(t, latest, a)
    decreases |t|
  {
    if t == [] {
      assert s + t == s;
    } else {
      var init, e := t[..|t| - 1], t[|t| - 1];
      assert s + t == s + init + [e];
      OfAgeOne(s + init, e, latest, a);
      OfAgeConcat(s, init, latest, a);
    }
  }

  lemma {:induction false} NoneOfAge(s: seq<Entry>, latest: map<Hash, int>, a: int)
    requires forall e <- s :: Age(latest, e) != a
    ensures OfAge(s, latest, a) == []
    decreases |s|
  {
    if s != [] {
      NoneOfAge(s[..|s| - 1], latest, a);
    }
  }

  /** A stable sort: sorted by age, and entries of one age in their old order, all of them. */
  ghost predicate StableSorted(s: seq<Entry>, t: seq<Entry>, latest: map<Hash, int>) {
    Sorted(t, latest) && multiset(t) == multiset(s) && forall a :: OfAge(t, latest, a) == OfAge(s, latest, a)
  }

  // Puts an entry after all that are not younger.
  method Insert(s: seq<Entry>, e: Entry, latest: map<Hash, int>) returns (t: seq<Entry>)
    requires Sorted(s, latest)
    ensures StableSorted(s + [e], t, latest)
  {
    var i := |s|;
    while i > 0 && Age(latest, s[i - 1]) > Age(latest, e)
      invariant 0 <= i <= |s| && forall j :: i <= j < |s| ==> Age(latest, s[j]) > Age(latest, e)
    {
      i := i - 1;
    }
    t := s[..i] + [e] + s[i..];
    assert s[..i] + s[i..] == s;
    Inserted(s[..i], e, s[i..], latest);
  }

  lemma InsertedSorted(s: seq<Entry>, e: Entry, latest: map<Hash, int>, i: nat)
    requires Sorted(s, latest) && i <= |s| && (i > 0 ==> Age(latest, s[i - 1]) <= Age(latest, e))
    requires forall j :: i <= j < |s| ==> Age(latest, s[j]) > Age(latest, e)
    ensures Sorted(s[..i] + [e] + s[i..], latest)
  {
  }

  lemma InsertedAll(l: seq<Entry>, e: Entry, r: seq<Entry>)
    ensures multiset(l + [e] + r) == multiset(l + r + [e])
  {
  }

  lemma InsertedStable(l: seq<Entry>, e: Entry, r: seq<Entry>, latest: map<Hash, int>, a: int)
    requires forall x <- r :: Age(latest, x) != Age(latest, e)
    ensures OfAge(l + [e] + r, latest, a) == OfAge(l + r + [e], latest, a)
  {
    OfAgeOne(l + r, e, latest, a);
    OfAgeOne(l, e, latest, a);
    OfAgeConcat(l, r, latest, a);
    OfAgeConcat(l + [e], r, latest, a);
    if a == Age(latest, e) {
      NoneOfAge(r, latest, a);
    }
  }

  lemma Inserted(l: seq<Entry>, e: Entry, r: seq<Entry>, latest: map<Hash, int>)
    requires Sorted(l + r, latest) && (l != [] ==> Age(latest, l[|l| - 1]) <= Age(latest, e))
    requires forall x <- r :: Age(latest, x) > Age(latest, e)
    ensures StableSorted(l + r + [e], l + [e] + r, latest)
  {
    var s := l + r;
    assert s[..|l|] == l && s[|l|..] == r;
    InsertedSorted(s, e, latest, |l|);
    InsertedAll(l, e, r);
    forall a ensures OfAge(l + [e] + r, latest, a) == OfAge(l + r + [e], latest, a) {
      InsertedStable(l, e, r, latest, a);
    }
  }

  method SortByAge(s: seq<Entry>, latest: map<Hash, int>) returns (t: seq<Entry>)
    ensures StableSorted(s, t, latest)
  {
    t := [];
    for i := 0 to |s|
      invariant StableSorted(s[..i], t, latest)
    {
      ghost var before := t;
      t := Insert(t, s[i], latest);
      assert s[..i + 1] == s[..i] + [s[i]];
      forall a ensures OfAge(t, latest, a) == OfAge(s[..i + 1], latest, a) {
        OfAgeOne(before, s[i], latest, a);
        OfAgeOne(s[..i], s[i], latest, a);
      }
    }
    assert s[..|s|] == s;
  }

  lemma SortedLast(s: seq<Entry>, latest: map<Hash, int>, e: Entry)
    requires Sorted(s, latest) && s != [] && e in s
    ensures Age(latest, e) <= Age(latest, s[|s| - 1])
  {
  }

  lemma LastAgrees(t: seq<Entry>, u: seq<Entry>, latest: map<Hash, int>)
    requires Sorted(t, latest) && Sorted(u, latest) && multiset(t) == multiset(u) && t != [] && u != []
    requires forall a :: OfAge(t, latest, a) == OfAge(u, latest, a)
    ensures t[|t| - 1] == u[|u| - 1]
  {
    var x, y := t[|t| - 1], u[|u| - 1];
    assert x in multiset(t) && y in multiset(u);
    SortedLast(t, latest, y);
    SortedLast(u, latest, x);
    var a := Age(latest, x);
    OfAgeLast(t, latest);
    OfAgeLast(u, latest);
    assert OfAge(t, latest, a) == OfAge(u, latest, a);
  }

  lemma OfAgeLast(t: seq<Entry>, latest: map<Hash, int>)
    requires t != []
    ensures var o := OfAge(t, latest, Age(latest, t[|t| - 1])); o != [] && o[|o| - 1] == t[|t| - 1]
  {
  }

  lemma MultisetInit(t: seq<Entry>)
    requires t != []
    ensures multiset(t[..|t| - 1]) == multiset(t) - multiset{t[|t| - 1]}
  {
    assert t == t[..|t| - 1] + [t[|t| - 1]];
  }

  ghost predicate Alike(t: seq<Entry>, u: seq<Entry>, latest: map<Hash, int>) {
    && Sorted(t, latest) && Sorted(u, latest) && multiset(t) == multiset(u)
    && forall a :: OfAge(t, latest, a) == OfAge(u, latest, a)
  }

  lemma AlikeLength(t: seq<Entry>, u: seq<Entry>, latest: map<Hash, int>)
    requires Alike(t, u, latest)
    ensures |t| == |u|
  {
    assert |t| == |multiset(t)| && |u| == |multiset(u)|;
  }

  lemma AlikeInit(t: seq<Entry>, u: seq<Entry>, latest: map<Hash, int>)
    requires Alike(t, u, latest) && t != [] && u != []
    ensures t[|t| - 1] == u[|u| - 1] && Alike(t[..|t| - 1], u[..|u| - 1], latest)
  {
    LastAgrees(t, u, latest);
    MultisetInit(t);
    MultisetInit(u);
    var t', u' := t[..|t| - 1], u[..|u| - 1];
    forall b ensures OfAge(t', latest, b) == OfAge(u', latest, b) {
      OneAgeLess(t, u, latest, b);
    }
  }

  lemma InitAndLast(t: seq<Entry>, u: seq<Entry>)
    requires t != [] && u != [] && t[..|t| - 1] == u[..|u| - 1] && t[|t| - 1] == u[|u| - 1]
    ensures t == u
  {
    assert t == t[..|t| - 1] + [t[|t| - 1]] && u == u[..|u| - 1] + [u[|u| - 1]];
  }

  /** There is only one way to sort stably. */
  lemma {:induction false} StableSortUnique(t: seq<Entry>, u: seq<Entry>, latest: map<Hash, int>)
    requires Alike(t, u, latest)
    ensures t == u
    decreases |t|
  {
    AlikeLength(t, u, latest);
    if t != [] {
      AlikeInit(t, u, latest);
      StableSortUnique(t[..|t| - 1], u[..|u| - 1], latest);
      InitAndLast(t, u);
    }
  }

  lemma OneAgeLess(t: seq<Entry>, u: seq<Entry>, latest: map<Hash, int>, b: int)
    requires t != [] && u != [] && t[|t| - 1] == u[|u| - 1] && OfAge(t, latest, b) == OfAge(u, latest, b)
    ensures OfAge(t[..|t| - 1], latest, b) == OfAge(u[..|u| - 1], latest, b)
  {
    var p, q := OfAge(t[..|t| - 1], latest, b), OfAge(u[..|u| - 1], latest, b);
    if Age(latest, t[|t| - 1]) == b {
      assert OfAge(t, latest, b)[..|p|] == p && OfAge(u, latest, b)[..|q|] == q;
    }
  }

  // ---- The order ---------------------------------------------------------------------------------

  // The entries of torrents that may go, protected or not, in their original order.
  function Pick(entries: seq<Entry>, held: set<Hash>, isProtected: bool): seq<Entry>
    decreases |entries|
  {
    if entries == [] then []
    else
      var e, rest := entries[|entries| - 1], Pick(entries[..|entries| - 1], held, isProtected);
      if e.hash !in held && e.isProtected == isProtected then rest + [e] else rest
  }

  lemma {:induction false} PickFinds(entries: seq<Entry>, held: set<Hash>, isProtected: bool, e: Entry)
    ensures e in Pick(entries, held, isProtected) <==> e in entries && e.hash !in held && e.isProtected == isProtected
    decreases |entries|
  {
    if entries != [] {
      PickFinds(entries[..|entries| - 1], held, isProtected, e);
      assert entries == entries[..|entries| - 1] + [entries[|entries| - 1]];
    }
  }

  method FindHeld(entries: seq<Entry>, stalled: set<Hash>, watching: Watching) returns (held: set<Hash>)
    ensures held == HeldSet(entries, stalled, watching)
  {
    held := {};
    for i := 0 to |entries|
      invariant held == HeldSet(entries[..i], stalled, watching)
    {
      var e := entries[i];
      if Holds(e, stalled, watching) {
        held := held + {e.hash};
      }
      assert entries[..i + 1] == entries[..i] + [e];
      HeldOne(entries[..i], e, stalled, watching);
    }
    assert entries[..|entries|] == entries;
  }

  lemma HeldOne(entries: seq<Entry>, e: Entry, stalled: set<Hash>, watching: Watching)
    ensures HeldSet(entries + [e], stalled, watching)
            == HeldSet(entries, stalled, watching) + if Holds(e, stalled, watching) then {e.hash} else {}
  {
    assert e in entries + [e];
    assert forall x :: x in entries ==> x in entries + [e];
  }

  method FindLatest(entries: seq<Entry>) returns (latest: map<Hash, int>)
    ensures latest == LatestMap(entries)
  {
    latest := map[];
    for i := 0 to |entries|
      invariant latest == LatestMap(entries[..i])
    {
      var e := entries[i];
      assert entries[..i + 1] == entries[..i] + [e];
      LatestOne(entries[..i], e);
      latest := latest[e.hash := Max(Age(latest, e), e.lastPlayed)];
    }
    assert entries[..|entries|] == entries;
  }

  lemma {:induction false} NeverPlayed(entries: seq<Entry>, h: Hash)
    requires forall e <- entries :: e.hash != h
    ensures Latest(entries, h) == 0
    decreases |entries|
  {
    if entries != [] {
      NeverPlayed(entries[..|entries| - 1], h);
    }
  }

  lemma LatestOne(entries: seq<Entry>, e: Entry)
    ensures LatestMap(entries + [e])
            == LatestMap(entries)[e.hash := Max(Age(LatestMap(entries), e), e.lastPlayed)]
  {
    var before, after := LatestMap(entries), LatestMap(entries + [e]);
    assert (entries + [e])[..|entries|] == entries;
    assert e in entries + [e];
    if e.hash !in before {
      forall x | x in entries ensures x.hash != e.hash {
        assert x.hash in before;
      }
      NeverPlayed(entries, e.hash);
    }
    assert after.Keys == before.Keys + {e.hash} by {
      assert forall x :: x in entries ==> x in entries + [e];
    }
  }

  ghost predicate Ordered(order: seq<Entry>, entries: seq<Entry>, held: set<Hash>, latest: map<Hash, int>) {
    var plain := |Pick(entries, held, false)|;
    && plain <= |order|
    && StableSorted(Pick(entries, held, false), order[..plain], latest)
    && StableSorted(Pick(entries, held, true), order[plain..], latest)
  }

  /** No entry of a held torrent, every other entry, unprotected before protected, and in each part the
      torrents played longest ago first. */
  ghost predicate IsOrder(order: seq<Entry>, entries: seq<Entry>, stalled: set<Hash>, watching: Watching) {
    Ordered(order, entries, HeldSet(entries, stalled, watching), LatestMap(entries))
  }

  method EvictionOrder(entries: seq<Entry>, stalled: set<Hash>, watching: Watching) returns (order: seq<Entry>)
    ensures IsOrder(order, entries, stalled, watching)
  {
    var held := FindHeld(entries, stalled, watching);
    var some, guarded := [], [];
    for i := 0 to |entries|
      invariant some == Pick(entries[..i], held, false) && guarded == Pick(entries[..i], held, true)
    {
      var e := entries[i];
      if e.hash in held {
      } else if e.isProtected {
        guarded := guarded + [e];
      } else {
        some := some + [e];
      }
      assert entries[..i + 1][..i] == entries[..i];
    }
    assert entries[..|entries|] == entries;
    var latest := FindLatest(entries);
    var first := SortByAge(some, latest);
    var then' := SortByAge(guarded, latest);
    order := first + then';
    assert |multiset(first)| == |multiset(some)|;
    assert order[..|some|] == first && order[|some|..] == then';
  }

  /** The eviction order is fully determined. */
  lemma OrderUnique(a: seq<Entry>, b: seq<Entry>, entries: seq<Entry>, stalled: set<Hash>, watching: Watching)
    requires IsOrder(a, entries, stalled, watching) && IsOrder(b, entries, stalled, watching)
    ensures a == b
  {
    var held, latest := HeldSet(entries, stalled, watching), LatestMap(entries);
    var plain := |Pick(entries, held, false)|;
    StableSortUnique(a[..plain], b[..plain], latest);
    StableSortUnique(a[plain..], b[plain..], latest);
    assert a == a[..plain] + a[plain..] && b == b[..plain] + b[plain..];
  }

  lemma OrderEntries(order: seq<Entry>, entries: seq<Entry>, held: set<Hash>, latest: map<Hash, int>, e: Entry)
    requires Ordered(order, entries, held, latest)
    ensures e in order <==> e in entries && e.hash !in held
    ensures e in order[..|Pick(entries, held, false)|] ==> !e.isProtected
    ensures e in order[|Pick(entries, held, false)|..] ==> e.isProtected
  {
    var plain := |Pick(entries, held, false)|;
    PickFinds(entries, held, false, e);
    PickFinds(entries, held, true, e);
    assert order == order[..plain] + order[plain..];
    assert e in order[..plain] <==> e in multiset(order[..plain]);
    assert e in order[plain..] <==> e in multiset(order[plain..]);
    assert e in Pick(entries, held, false) <==> e in multiset(Pick(entries, held, false));
    assert e in Pick(entries, held, true) <==> e in multiset(Pick(entries, held, true));
  }

  // ---- Bytes -------------------------------------------------------------------------------------

  // Bytes of the entries whose torrent is not gone.
  function Remaining(entries: seq<Entry>, gone: set<Hash>): nat
    decreases |entries|
  {
    if entries == [] then 0
    else
      var e := entries[|entries| - 1];
      Remaining(entries[..|entries| - 1], gone) + if e.hash in gone then 0 else e.bytes
  }

  function FreedBy(entries: seq<Entry>, h: Hash): nat
    decreases |entries|
  {
    if entries == [] then 0
    else
      var e := entries[|entries| - 1];
      FreedBy(entries[..|entries| - 1], h) + if e.hash == h then e.bytes else 0
  }

  method TorrentBytes(entries: seq<Entry>) returns (freed: map<Hash, nat>)
    ensures forall h :: (if h in freed then freed[h] else 0) == FreedBy(entries, h)
  {
    freed := map[];
    for i := 0 to |entries|
      invariant forall h :: (if h in freed then freed[h] else 0) == FreedBy(entries[..i], h)
    {
      var e := entries[i];
      freed := freed[e.hash := (if e.hash in freed then freed[e.hash] else 0) + e.bytes];
      assert entries[..i + 1][..i] == entries[..i];
    }
    assert entries[..|entries|] == entries;
  }

  /** Deleting one more torrent lowers what remains by exactly that torrent's bytes. */
  lemma {:induction false} OneGone(entries: seq<Entry>, gone: set<Hash>, h: Hash)
    requires h !in gone
    ensures Remaining(entries, gone + {h}) == Remaining(entries, gone) - FreedBy(entries, h)
    decreases |entries|
  {
    if entries != [] {
      OneGone(entries[..|entries| - 1], gone, h);
    }
  }

  // ---- Evicting ----------------------------------------------------------------------------------

  // The torrents of an order, each where it first appears.
  function Torrents(order: seq<Entry>): seq<Hash>
    decreases |order|
  {
    if order == [] then []
    else
      var rest, h := Torrents(order[..|order| - 1]), order[|order| - 1].hash;
      if h in rest then rest else rest + [h]
  }

  function SetOf(s: seq<Hash>): set<Hash> { set h | h in s }

  lemma {:induction false} TorrentsAre(order: seq<Entry>, h: Hash)
    ensures h in Torrents(order) <==> exists e :: e in order && e.hash == h
    decreases |order|
  {
    if order != [] {
      var init, last := order[..|order| - 1], order[|order| - 1];
      TorrentsAre(init, h);
      assert order == init + [last] && last in order;
      assert forall e :: e in init ==> e in order;
    }
  }

  /** The shortest prefix of the order's torrents that brings usage down to the target, or all. */
  ghost predicate ShortestPrefix(evicted: seq<Hash>, all: seq<Hash>, entries: seq<Entry>, target: int) {
    && evicted <= all
    && (Remaining(entries, SetOf(evicted)) <= target || evicted == all)
    && forall m: nat :: m < |evicted| ==> Remaining(entries, SetOf(evicted[..m])) > target
  }

  ghost predicate Needed(evicted: seq<Hash>, entries: seq<Entry>, target: int) {
    forall m: nat :: m < |evicted| ==> Remaining(entries, SetOf(evicted[..m])) > target
  }

  lemma NeededOne(evicted: seq<Hash>, h: Hash, entries: seq<Entry>, target: int)
    requires Needed(evicted, entries, target) && Remaining(entries, SetOf(evicted)) > target
    ensures Needed(evicted + [h], entries, target)
  {
    forall m: nat | m <= |evicted| ensures Remaining(entries, SetOf((evicted + [h])[..m])) > target {
      assert (evicted + [h])[..m] == evicted[..m];
      assert evicted[..|evicted|] == evicted;
    }
  }

  lemma SetOfOne(s: seq<Hash>, h: Hash)
    ensures SetOf(s + [h]) == SetOf(s) + {h}
  {
  }

  lemma TorrentsOne(order: seq<Entry>, i: nat)
    requires i < |order|
    ensures var rest, h := Torrents(order[..i]), order[i].hash;
            Torrents(order[..i + 1]) == if h in rest then rest else rest + [h]
  {
    assert order[..i + 1][..i] == order[..i];
  }

  lemma {:induction false} TorrentsPrefix(order: seq<Entry>, i: nat)
    requires i <= |order|
    ensures Torrents(order[..i]) <= Torrents(order)
    decreases |order| - i
  {
    if i < |order| {
      TorrentsOne(order, i);
      TorrentsPrefix(order, i + 1);
    } else {
      assert order[..i] == order;
    }
  }

  /** Evicts in order until usage is at the target. Usage afterwards is the bytes of what is left;
      nothing outside the order goes; and when no eviction fails, exactly the shortest prefix goes. */
  method EvictDownTo(before: int, target: int, order: seq<Entry>, freed: map<Hash, nat>, fails: set<Hash>,
                     ghost entries: seq<Entry>)
    returns (after: int, evicted: seq<Hash>)
    requires before == Remaining(entries, {})
    requires forall h :: (if h in freed then freed[h] else 0) == FreedBy(entries, h)
    ensures after == Remaining(entries, SetOf(evicted))
    ensures forall h <- evicted :: h in Torrents(order) && h !in fails
    ensures after <= target || forall h <- Torrents(order) :: h in evicted || h in fails
    ensures fails == {} ==> ShortestPrefix(evicted, Torrents(order), entries, target)
  {
    after, evicted := before, [];
    var gone: set<Hash>, i := {}, 0;
    while i < |order|
      invariant 0 <= i <= |order| && gone == SetOf(evicted) && after == Remaining(entries, gone)
      invariant forall h <- evicted :: h in Torrents(order[..i]) && h !in fails
      invariant forall h <- Torrents(order[..i]) :: h in evicted || h in fails
      invariant fails == {} ==> evicted == Torrents(order[..i])
      invariant Needed(evicted, entries, target)
    {
      if after <= target {
        break;
      }
      var h := order[i].hash;
      TorrentsOne(order, i);
      if h !in gone && h !in fails {
        NeededOne(evicted, h, entries, target);
        SetOfOne(evicted, h);
        OneGone(entries, gone, h);
        gone := gone + {h};
        evicted := evicted + [h];
        after := after - if h in freed then freed[h] else 0;
      }
      i := i + 1;
    }
    TorrentsPrefix(order, i);
    assert order[..|order|] == order;
  }

  lemma {:induction false} WithoutConcat(a: seq<Entry>, b: seq<Entry>, spared: set<Hash>)
    ensures Without(a + b, spared) == Without(a, spared) + Without(b, spared)
    decreases |b|
  {
    if b == [] {
      assert a + b == a;
    } else {
      assert (a + b)[..|a + b| - 1] == a + b[..|b| - 1];
      WithoutConcat(a, b[..|b| - 1], spared);
    }
  }

  ghost predicate AllProtected(entries: seq<Entry>, h: Hash) {
    forall e <- entries :: e.hash == h ==> e.isProtected
  }

  // Torrents with an unprotected file before those without, and in each group the longest unplayed first.
  ghost predicate GoesNoLater(entries: seq<Entry>, h: Hash, g: Hash) {
    && (AllProtected(entries, h) ==> AllProtected(entries, g))
    && (AllProtected(entries, h) == AllProtected(entries, g) ==> Latest(entries, h) <= Latest(entries, g))
  }

  // In an order whose torrents include p as a prefix with h but not g, some entry of h comes before all of g.
  lemma {:induction false} SeenFirst(w: seq<Entry>, p: seq<Hash>, h: Hash, g: Hash) returns (i: nat)
    requires p <= Torrents(w) && h in p && g !in p
    ensures i < |w| && w[i].hash == h && forall j :: 0 <= j <= i ==> w[j].hash != g
    decreases |w|
  {
    var init, last := w[..|w| - 1], w[|w| - 1];
    if p <= Torrents(init) {
      i := SeenFirst(init, p, h, g);
    } else {
      assert p == Torrents(w) == Torrents(init) + [last.hash];
      if h in Torrents(init) {
        assert Torrents(init) <= p;
        i := SeenFirst(init, Torrents(init), h, g);
      } else {
        i := |w| - 1;
        forall j | 0 <= j <= i ensures w[j].hash != g {
          TorrentsAre(init, g);
          assert j < |init| ==> init[j] in init;
        }
      }
    }
  }

  lemma {:induction false} WithoutSorted(s: seq<Entry>, spared: set<Hash>, latest: map<Hash, int>)
    requires Sorted(s, latest)
    ensures Sorted(Without(s, spared), latest)
    decreases |s|
  {
    if s != [] {
      var init, last := s[..|s| - 1], s[|s| - 1];
      WithoutSorted(init, spared, latest);
      var rest := Without(init, spared);
      forall i | 0 <= i < |rest| ensures Age(latest, rest[i]) <= Age(latest, last) {
        WithoutFinds(init, spared, rest[i]);
        var j :| 0 <= j < |init| && init[j] == rest[i];
        assert s[j] == rest[i];
      }
    }
  }

  // The order without spared torrents, in its two parts.
  lemma Parts(order: seq<Entry>, entries: seq<Entry>, held: set<Hash>, latest: map<Hash, int>, spared: set<Hash>)
    returns (a: seq<Entry>, b: seq<Entry>)
    requires Ordered(order, entries, held, latest)
    ensures Without(order, spared) == a + b && Sorted(a, latest) && Sorted(b, latest)
    ensures (forall e <- a :: !e.isProtected) && forall e <- b :: e.isProtected
  {
    var plain := |Pick(entries, held, false)|;
    a, b := Without(order[..plain], spared), Without(order[plain..], spared);
    assert order == order[..plain] + order[plain..];
    WithoutConcat(order[..plain], order[plain..], spared);
    WithoutSorted(order[..plain], spared, latest);
    WithoutSorted(order[plain..], spared, latest);
    forall e | e in a ensures !e.isProtected {
      WithoutFinds(order[..plain], spared, e);
      OrderEntries(order, entries, held, latest, e);
    }
    forall e | e in b ensures e.isProtected {
      WithoutFinds(order[plain..], spared, e);
      OrderEntries(order, entries, held, latest, e);
    }
  }

  lemma AgeIsLatest(entries: seq<Entry>, e: Entry)
    requires e in entries
    ensures Age(LatestMap(entries), e) == Latest(entries, e.hash)
  {
    assert e.hash in LatestMap(entries);
  }

  /** Whatever prefix of the order's torrents is evicted, nothing goes before what should go first. */
  lemma PrefixGoesFirst(order: seq<Entry>, entries: seq<Entry>, stalled: set<Hash>, watching: Watching,
                        spared: set<Hash>, evicted: seq<Hash>, h: Hash, g: Hash)
    requires IsOrder(order, entries, stalled, watching) && evicted <= Torrents(Without(order, spared))
    requires h in evicted && g !in evicted && g in Torrents(Without(order, spared))
    ensures GoesNoLater(entries, h, g)
  {
    var held, latest, w := HeldSet(entries, stalled, watching), LatestMap(entries), Without(order, spared);
    var a, b := Parts(order, entries, held, latest, spared);
    var i := SeenFirst(w, evicted, h, g);
    forall e ensures e in w <==> e in entries && e.hash !in held && e.hash !in spared {
      WithoutFinds(order, spared, e);
      OrderEntries(order, entries, held, latest, e);
    }
    TorrentsAre(w, g);
    TorrentsAre(w, h);
    var x := w[i];
    assert x in w;
    AgeIsLatest(entries, x);
    forall y | y in w && y.hash == g ensures exists j :: i < j < |w| && w[j] == y {
      var j :| 0 <= j < |w| && w[j] == y;
    }
    Later(entries, held, spared, latest, a, b, i, h, g);
  }

  lemma Later(entries: seq<Entry>, held: set<Hash>, spared: set<Hash>, latest: map<Hash, int>,
              a: seq<Entry>, b: seq<Entry>, i: nat, h: Hash, g: Hash)
    requires latest == LatestMap(entries) && i < |a + b| && (a + b)[i].hash == h
    requires Sorted(a, latest) && Sorted(b, latest)
    requires (forall e <- a :: !e.isProtected) && forall e <- b :: e.isProtected
    requires forall e :: e in a + b <==> e in entries && e.hash !in held && e.hash !in spared
    requires exists y :: y in a + b && y.hash == g
    requires forall y :: y in a + b && y.hash == g ==> exists j :: i < j < |a + b| && (a + b)[j] == y
    ensures GoesNoLater(entries, h, g)
  {
    var w := a + b;
    var x := w[i];
    assert x in w;
    AgeIsLatest(entries, x);
    forall j: nat | j < |w| ensures j >= |a| <==> w[j].isProtected {
      assert if j < |a| then w[j] == a[j] else w[j] == b[j - |a|];
    }
    if AllProtected(entries, h) {
      forall y | y in entries && y.hash == g ensures y.isProtected {
        assert y in w;
      }
    }
    if AllProtected(entries, h) == AllProtected(entries, g) {
      var y :| y in w && y.hash == g && (!AllProtected(entries, g) ==> !y.isProtected);
      AgeIsLatest(entries, y);
      var j :| i < j < |w| && w[j] == y;
      if y.isProtected {
        assert w[i] == b[i - |a|] && w[j] == b[j - |a|];
      } else {
        assert w[i] == a[i] && w[j] == a[j];
      }
    }
  }

  // ---- Making room -------------------------------------------------------------------------------

  predicate Unwatched(e: Entry, anime: int, watched: set<int>) {
    e.anime == Some(anime) && (e.ep.number.None? || e.ep.number.value !in watched)
  }

  // A torrent with an unwatched episode of the show.
  ghost predicate Spared(entries: seq<Entry>, anime: int, watched: set<int>, h: Hash) {
    exists e :: e in entries && e.hash == h && Unwatched(e, anime, watched)
  }

  function SparedSet(entries: seq<Entry>, anime: int, watched: set<int>): set<Hash> {
    set e | e in entries && Unwatched(e, anime, watched) :: e.hash
  }

  method FindSpared(entries: seq<Entry>, anime: int, watched: set<int>) returns (spared: set<Hash>)
    ensures spared == SparedSet(entries, anime, watched)
  {
    spared := {};
    for i := 0 to |entries|
      invariant spared == SparedSet(entries[..i], anime, watched)
    {
      var e := entries[i];
      if Unwatched(e, anime, watched) {
        spared := spared + {e.hash};
      }
      assert entries[..i + 1] == entries[..i] + [e];
      SparedOne(entries[..i], e, anime, watched);
    }
    assert entries[..|entries|] == entries;
  }

  lemma SparedOne(entries: seq<Entry>, e: Entry, anime: int, watched: set<int>)
    ensures SparedSet(entries + [e], anime, watched)
            == SparedSet(entries, anime, watched) + if Unwatched(e, anime, watched) then {e.hash} else {}
  {
    assert e in entries + [e];
    assert forall x :: x in entries ==> x in entries + [e];
  }

  function Without(order: seq<Entry>, spared: set<Hash>): seq<Entry>
    decreases |order|
  {
    if order == [] then []
    else
      var rest, e := Without(order[..|order| - 1], spared), order[|order| - 1];
      if e.hash in spared then rest else rest + [e]
  }

  lemma {:induction false} WithoutFinds(order: seq<Entry>, spared: set<Hash>, e: Entry)
    ensures e in Without(order, spared) <==> e in order && e.hash !in spared
    decreases |order|
  {
    if order != [] {
      WithoutFinds(order[..|order| - 1], spared, e);
      assert order == order[..|order| - 1] + [order[|order| - 1]];
    }
  }

  method Delete(order: seq<Entry>, spared: set<Hash>) returns (kept: seq<Entry>)
    ensures kept == Without(order, spared)
  {
    kept := [];
    for i := 0 to |order|
      invariant kept == Without(order[..i], spared)
    {
      if order[i].hash !in spared {
        kept := kept + [order[i]];
      }
      assert order[..i + 1][..i] == order[..i];
    }
    assert order[..|order|] == order;
  }

  // What evicting all of an order would free.
  method Available(order: seq<Entry>, freed: map<Hash, nat>, ghost entries: seq<Entry>) returns (available: nat)
    requires forall h :: (if h in freed then freed[h] else 0) == FreedBy(entries, h)
    ensures Remaining(entries, {}) - available == Remaining(entries, SetOf(Torrents(order)))
  {
    available := 0;
    var counted: set<Hash> := {};
    assert SetOf([]) == {};
    for i := 0 to |order|
      invariant counted == SetOf(Torrents(order[..i]))
      invariant Remaining(entries, {}) - available == Remaining(entries, counted)
    {
      var h := order[i].hash;
      TorrentsOne(order, i);
      if h !in counted {
        OneGone(entries, counted, h);
        SetOfOne(Torrents(order[..i]), h);
        counted := counted + {h};
        available := available + if h in freed then freed[h] else 0;
      }
    }
    assert order[..|order|] == order;
  }

  datatype Usage = Usage(entries: seq<Entry>, bytes: int, budget: int)

  ghost predicate MayGo(u: Usage, stalled: set<Hash>, watching: Watching, anime: int, watched: set<int>, h: Hash) {
    && (exists e :: e in u.entries && e.hash == h)
    && !Held(u.entries, stalled, watching, h) && !Spared(u.entries, anime, watched, h)
  }

  /** In plain words: a torrent may go if none of its files is pinned, kept, being watched, unfinished
      without having stalled, or an episode of the show that is not known to be watched. */
  lemma MayGoWhen(u: Usage, stalled: set<Hash>, watching: Watching, anime: int, watched: set<int>, h: Hash)
    ensures MayGo(u, stalled, watching, anime, watched, h) <==>
              && (exists e :: e in u.entries && e.hash == h)
              && forall e <- u.entries :: e.hash == h ==>
                   && !e.pinned && !e.kept && (e.complete || h in stalled)
                   && !(e.anime == Some(watching.anime) && e.ep.text == watching.epText)
                   && (e.anime == Some(anime) ==> e.ep.number.Some? && e.ep.number.value in watched)
  {
  }

  // What may be evicted, in eviction order.
  ghost function Candidates(order: seq<Entry>, u: Usage, anime: int, watched: set<int>): seq<Hash> {
    Torrents(Without(order, SparedSet(u.entries, anime, watched)))
  }

  /** Makes room for the next episode of a show. No torrent with a held file or an unwatched episode of
      the show goes. When evictions succeed, nothing goes unless enough can, and then the shortest
      prefix of the eviction order's torrents that reaches the target does; so a torrent only goes
      after every one that is to go before it. */
  method MakeRoom(u: Usage, need: int, anime: int, watched: set<int>, stalled: set<Hash>, watching: Watching, fails: set<Hash>)
    returns (ok: bool, evicted: seq<Hash>, ghost order: seq<Entry>)
    requires u.bytes == Remaining(u.entries, {})
    ensures IsOrder(order, u.entries, stalled, watching)
    ensures forall h :: h in Candidates(order, u, anime, watched) <==> MayGo(u, stalled, watching, anime, watched, h)
    ensures forall h <- evicted :: h in Candidates(order, u, anime, watched) && h !in fails
    ensures u.budget <= 0 || u.bytes <= u.budget - need ==> ok && evicted == []
    ensures u.budget > 0 && u.bytes > u.budget - need
            && Remaining(u.entries, SetOf(Candidates(order, u, anime, watched))) > u.budget - need ==>
              !ok && evicted == []
    ensures u.budget > 0 && u.bytes > u.budget - need ==> (ok <==> Remaining(u.entries, SetOf(evicted)) <= u.budget - need)
    ensures u.budget > 0 && u.bytes > u.budget - need && fails == {}
            && Remaining(u.entries, SetOf(Candidates(order, u, anime, watched))) <= u.budget - need ==>
              ok && ShortestPrefix(evicted, Candidates(order, u, anime, watched), u.entries, u.budget - need)
    ensures fails == {} ==>
              forall h, g :: h in evicted && g !in evicted && MayGo(u, stalled, watching, anime, watched, g) ==>
                GoesNoLater(u.entries, h, g)
  {
    var target := u.budget - need;
    var plan := EvictionOrder(u.entries, stalled, watching);
    order := plan;
    var spared := FindSpared(u.entries, anime, watched);
    var rest := Delete(plan, spared);
    ghost var candidates := Torrents(rest);
    forall h ensures h in candidates <==> MayGo(u, stalled, watching, anime, watched, h) {
      CandidatesMayGo(order, u.entries, stalled, watching, spared, h);
      assert h in spared <==> Spared(u.entries, anime, watched, h);
    }
    evicted := [];
    assert SetOf([]) == {};
    if u.budget <= 0 || u.bytes <= target {
      return true, [], order;
    }
    var freed := TorrentBytes(u.entries);
    var available := Available(rest, freed, u.entries);
    if u.bytes - available > target {
      return false, [], order;
    }
    var after;
    after, evicted := EvictDownTo(u.bytes, target, rest, freed, fails, u.entries);
    ok := after <= target;
    if fails == {} {
      forall h, g | h in evicted && g !in evicted && g in candidates ensures GoesNoLater(u.entries, h, g) {
        PrefixGoesFirst(order, u.entries, stalled, watching, spared, evicted, h, g);
      }
    }
  }

  lemma CandidatesMayGo(order: seq<Entry>, entries: seq<Entry>, stalled: set<Hash>, watching: Watching,
                        spared: set<Hash>, h: Hash)
    requires IsOrder(order, entries, stalled, watching)
    ensures h in Torrents(Without(order, spared)) <==>
              !Held(entries, stalled, watching, h) && h !in spared && exists e :: e in entries && e.hash == h
  {
    var held, latest := HeldSet(entries, stalled, watching), LatestMap(entries);
    assert h in held <==> Held(entries, stalled, watching, h);
    TorrentsAre(Without(order, spared), h);
    forall e ensures e in Without(order, spared) <==> e in entries && e.hash !in held && e.hash !in spared {
      WithoutFinds(order, spared, e);
      OrderEntries(order, entries, held, latest, e);
    }
  }

  // ---- Deleting watched episodes -----------------------------------------------------------------

  datatype Mode = Now | KeepTwo | Off

  predicate DoneWith(mode: Mode, watched: set<int>, ep: int) {
    ep in watched && (mode.Now? || (ep + 1 in watched && ep + 2 in watched))
  }

  // A file that stands in the way of deleting its torrent.
  predicate Vetoes(e: Entry, anime: int, mode: Mode, downloads: bool, watched: set<int>) {
    || e.anime != Some(anime) || e.ep.number.None? || e.pinned || (e.kept && !downloads)
    || !DoneWith(mode, watched, e.ep.number.value)
  }

  /** A torrent is chosen exactly when it has a file and every file of it is a watched episode of the
      show that nothing keeps. */
  method AutoDelete(entries: seq<Entry>, anime: int, mode: Mode, downloads: bool, watched: set<int>)
    returns (chosen: set<Hash>)
    ensures anime == 0 || mode.Off? ==> chosen == {}
    ensures anime != 0 && !mode.Off? ==>
              forall h :: h in chosen <==>
                && (exists e :: e in entries && e.hash == h)
                && forall e <- entries :: e.hash == h ==>
                     && e.anime == Some(anime) && e.ep.number.Some? && !e.pinned && (e.kept ==> downloads)
                     && e.ep.number.value in watched
                     && (mode.KeepTwo? ==> e.ep.number.value + 1 in watched && e.ep.number.value + 2 in watched)
  {
    if anime == 0 || mode.Off? {
      return {};
    }
    var veto: set<Hash>, candidates: set<Hash> := {}, {};
    for i := 0 to |entries|
      invariant forall h <- veto :: exists j :: 0 <= j < i && entries[j].hash == h && Vetoes(entries[j], anime, mode, downloads, watched)
      invariant forall h <- candidates :: exists j :: 0 <= j < i && entries[j].hash == h
      invariant forall j :: 0 <= j < i ==>
                  entries[j].hash in if Vetoes(entries[j], anime, mode, downloads, watched) then veto else candidates
    {
      var e := entries[i];
      if Vetoes(e, anime, mode, downloads, watched) {
        veto := veto + {e.hash};
      } else {
        candidates := candidates + {e.hash};
      }
    }
    chosen := candidates - veto;
  }
}
