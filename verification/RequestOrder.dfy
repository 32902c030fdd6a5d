/**
 * The order in which a connection considers chunks to request. The comparison is a cascade of
 * criteria, some of them only looked at under conditions; it is only usable in a heap if those
 * conditions never make it ambiguous or intransitive.
 */
module RequestOrder {
  import opened Basics
  import opened Requests

  // A comparison in progress: the first criterion that tells the sides apart settles it.
  datatype Computation = Undecided | Decided(less: bool) {
    function ByBool(left: bool, right: bool): Computation {
      if Decided? || left == right then this else Decided(!left)
    }
    function ByInt(left: int, right: int): Computation {
      if Decided? || left == right then this else Decided(left < right)
    }
  }

  const READAHEAD := 3

  datatype PieceState = PieceState(priority: int, availability: int)

  /** Everything the comparison reads, fixed while a heap is built. */
  datatype Context = Context(
    me: PeerId,
    chunksPerPiece: nat,
    peerChoking: bool,
    allowedFast: set<nat>,
    pieces: map<nat, PieceState>,
    owner: map<RequestIndex, Claim>,
    outstanding: map<PeerId, nat>,
    activeWebseeds: bool,
    // A random permutation of the pieces.
    shuffle: map<nat, int>)

  function PieceOf(x: Context, r: RequestIndex): nat
    requires x.chunksPerPiece > 0
  {
    r / x.chunksPerPiece
  }

  // A chunk that was put on the heap: its piece's state is recorded, and so is its holder's queue.
  ghost predicate Known(x: Context, r: RequestIndex) {
    && x.chunksPerPiece > 0
    && PieceOf(x, r) in x.pieces && PieceOf(x, r) in x.shuffle
    && (r in x.owner ==> x.owner[r].peer in x.outstanding && x.owner[r].when != 0)
  }

  datatype Verdict = Less(less: bool) | Panics

  function ByOwner(x: Context, left: RequestIndex, right: RequestIndex): Computation {
    var l, r := left in x.owner, right in x.owner;
    Undecided.ByBool(r && x.owner[right].peer == x.me, l && x.owner[left].peer == x.me).ByBool(!r, !l)
  }

  function LessByValue(x: Context, left: RequestIndex, right: RequestIndex): Verdict
    requires Known(x, left) && Known(x, right)
  {
    var lp, rp := PieceOf(x, left), PieceOf(x, right);
    var choke :=
      if x.peerChoking then Undecided.ByBool(lp !in x.allowedFast, rp !in x.allowedFast) else Undecided;
    var prio := choke.ByInt(-x.pieces[lp].priority, -x.pieces[rp].priority);
    if prio.Decided? then Less(prio.less)
    else if x.pieces[lp].priority != x.pieces[rp].priority then Panics
    else
      var owned := ByOwner(x, left, right);
      if owned.Decided? then Less(owned.less)
      else if left in x.owner && right !in x.owner then Panics
      else
        var queue :=
          if left in x.owner then
            Undecided.ByInt(x.outstanding[x.owner[right].peer], x.outstanding[x.owner[left].peer])
                     .ByInt(x.owner[right].when - x.owner[left].when, 0)
          else Undecided;
        var last :=
          if x.activeWebseeds then queue.ByInt(right, left)
          else
            queue.ByInt(x.pieces[lp].availability, x.pieces[rp].availability)
                 .ByInt(if x.pieces[lp].priority == READAHEAD then lp else x.shuffle[lp],
                        if x.pieces[lp].priority == READAHEAD then rp else x.shuffle[rp])
                 .ByInt(left, right);
        if last.Decided? then Less(last.less) else Panics
  }

  // ---- The reference: chunks compared by a fixed tuple of numbers --------------------------------

  function Bit(b: bool): int { if b then 1 else 0 }

  function Key(x: Context, r: RequestIndex): (k: seq<int>)
    requires Known(x, r)
    ensures |k| == 9
  {
    var p := PieceOf(x, r);
    var state := x.pieces[p];
    var held := r in x.owner;
    [ Bit(x.peerChoking && p !in x.allowedFast),
      -state.priority,
      Bit(!(held && x.owner[r].peer == x.me)),
      Bit(held),
      if held then -(x.outstanding[x.owner[r].peer] as int) else 0,
      if held then -x.owner[r].when else 0,
      if x.activeWebseeds then 0 else state.availability,
      if x.activeWebseeds then 0 else if state.priority == READAHEAD then p else x.shuffle[p],
      if x.activeWebseeds then -(r as int) else r ]
  }

  /** On different chunks the cascade always decides, and it decides as the tuples compare. */
  lemma DecidesAsKeys(x: Context, left: RequestIndex, right: RequestIndex)
    requires Known(x, left) && Known(x, right) && left != right
    ensures LessByValue(x, left, right) == Less(Before(Key(x, left), Key(x, right)))
  {
    var a, b := Key(x, left), Key(x, right);
    var i := DifferenceExists(a, b, 0, 8);
    forall j | FirstDifference(a, b, j) ensures j == i {
      assert i <= j && j <= i;
    }
    DecidesAt(x, left, right, i);
    assert Before(a, b) <==> a[i] < b[i];
  }

  lemma DecidesAt(x: Context, left: RequestIndex, right: RequestIndex, i: int)
    requires Known(x, left) && Known(x, right) && FirstDifference(Key(x, left), Key(x, right), i)
    ensures LessByValue(x, left, right) == Less(Key(x, left)[i] < Key(x, right)[i])
  {
    var a, b := Key(x, left), Key(x, right);
    if i == 0 {
    } else if i == 1 {
      assert a[0] == b[0];
    } else if i <= 3 {
      assert a[0] == b[0] && a[1] == b[1];
      assert i == 3 ==> a[2] == b[2];
    } else if i <= 5 {
      assert a[0] == b[0] && a[1] == b[1] && a[2] == b[2] && a[3] == b[3];
      assert i == 5 ==> a[4] == b[4];
    } else {
      assert a[0] == b[0] && a[1] == b[1] && a[2] == b[2] && a[3] == b[3] && a[4] == b[4] && a[5] == b[5];
      assert i >= 7 ==> a[6] == b[6];
      assert i >= 8 ==> a[7] == b[7];
    }
  }

  // Equal in what is compared first: whether it can be served now, and the priority of its piece.
  ghost predicate SameRank(x: Context, a: RequestIndex, b: RequestIndex)
    requires Known(x, a) && Known(x, b)
  {
    && (x.peerChoking ==> (PieceOf(x, a) in x.allowedFast <==> PieceOf(x, b) in x.allowedFast))
    && x.pieces[PieceOf(x, a)].priority == x.pieces[PieceOf(x, b)].priority
  }

  /** Which chunk is preferred, criterion by criterion: one that a choking peer serves all the same; one
      of a more urgent piece; one this peer was asked for already; one nobody was asked for; of two that
      others hold, the one whose holder has more outstanding, then the one asked for later; and of two
      that are free, the one of the rarer piece, or with webseeds at work the one further back. */
  lemma Preferred(x: Context, a: RequestIndex, b: RequestIndex)
    requires Known(x, a) && Known(x, b) && a != b
    ensures x.peerChoking && PieceOf(x, a) in x.allowedFast && PieceOf(x, b) !in x.allowedFast ==> LessByValue(x, a, b) == Less(true)
    ensures (x.peerChoking ==> (PieceOf(x, a) in x.allowedFast <==> PieceOf(x, b) in x.allowedFast)) ==>
              x.pieces[PieceOf(x, a)].priority > x.pieces[PieceOf(x, b)].priority ==> LessByValue(x, a, b) == Less(true)
    ensures SameRank(x, a, b) && a in x.owner && x.owner[a].peer == x.me && !(b in x.owner && x.owner[b].peer == x.me)
            ==> LessByValue(x, a, b) == Less(true)
    ensures SameRank(x, a, b) && a !in x.owner && b in x.owner && x.owner[b].peer != x.me ==> LessByValue(x, a, b) == Less(true)
    ensures SameRank(x, a, b) && Elsewhere(x, a) && Elsewhere(x, b) ==>
              var l, r := x.outstanding[x.owner[a].peer], x.outstanding[x.owner[b].peer];
              l > r || (l == r && x.owner[a].when > x.owner[b].when) ==> LessByValue(x, a, b) == Less(true)
    ensures SameRank(x, a, b) && a !in x.owner && b !in x.owner ==>
              if x.activeWebseeds then LessByValue(x, a, b) == Less(a > b)
              else x.pieces[PieceOf(x, a)].availability < x.pieces[PieceOf(x, b)].availability ==> LessByValue(x, a, b) == Less(true)
  {
  }

  predicate Elsewhere(x: Context, r: RequestIndex) { r in x.owner && x.owner[r].peer != x.me }

  /** `lessByValue` is a strict total order on distinct chunks: it never panics, exactly one of the
      two directions holds, and it is transitive. */
  lemma StrictTotalOrder(x: Context, a: RequestIndex, b: RequestIndex, c: RequestIndex)
    requires Known(x, a) && Known(x, b) && Known(x, c) && a != b && b != c
    ensures LessByValue(x, a, b).Less? && LessByValue(x, b, a).Less?
    ensures LessByValue(x, a, b).less <==> !LessByValue(x, b, a).less
    ensures LessByValue(x, a, b).less && LessByValue(x, b, c).less
            ==> a != c && LessByValue(x, a, c) == Less(true)
  {
    DecidesAsKeys(x, a, b);
    DecidesAsKeys(x, b, a);
    DecidesAsKeys(x, b, c);
    var ka, kb, kc := Key(x, a), Key(x, b), Key(x, c);
    var i := DifferenceExists(ka, kb, 0, 8);
    assert FirstDifference(kb, ka, i);
    if Before(ka, kb) {
      BeforeAsymmetric(ka, kb);
    }
    if Before(ka, kb) && Before(kb, kc) {
      BeforeTransitive(ka, kb, kc);
      if a != c {
        DecidesAsKeys(x, a, c);
      } else {
        BeforeAsymmetric(ka, kb);
      }
    }
  }

  /** The comparison is ambiguous only for a chunk against itself, which a heap without duplicates
      never asks about. */
  lemma AmbiguousOnlyOnItself(x: Context, a: RequestIndex, b: RequestIndex)
    requires Known(x, a) && Known(x, b)
    ensures LessByValue(x, a, b).Panics? <==> a == b
  {
    if a != b {
      DecidesAsKeys(x, a, b);
    }
  }

  /** Any non-empty set of candidates therefore has a chunk that beats all the others. */
  lemma {:induction false} BestExists(x: Context, heap: set<RequestIndex>) returns (best: RequestIndex)
    requires heap != {} && forall r <- heap :: Known(x, r)
    ensures best in heap && forall r <- heap :: r != best ==> LessByValue(x, best, r) == Less(true)
    decreases heap
  {
    var r :| r in heap;
    var rest := heap - {r};
    if rest == {} {
      assert heap == {r};
      best := r;
    } else {
      var other := BestExists(x, rest);
      StrictTotalOrder(x, other, r, other);
      best := if LessByValue(x, other, r).less then other else r;
      forall q | q in heap && q != best ensures LessByValue(x, best, q) == Less(true) {
        if best == r && q != other {
          StrictTotalOrder(x, r, other, q);
        }
      }
    }
  }
}
