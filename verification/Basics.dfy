/**
 * What several components share: division and rounding, tuples compared place by place, sizes of
 * sets, and things laid end to end.
 */
module Basics {

  function Min(a: int, b: int): int { if a < b then a else b }
  function Max(a: int, b: int): int { if a > b then a else b }

  // A connection's write buffer counts as full from here on.
  const HIGH_WATER := 32768

  // ---- Division ----------------------------------------------------------------------------------

  // Rounded up.
  function CeilDiv(a: nat, b: nat): (q: nat)
    requires b > 0
    ensures a > 0 <==> q > 0
  {
    (a + b - 1) / b
  }

  lemma Times(a: nat, b: nat, d: nat)
    requires a <= b
    ensures a * d <= b * d
  {
  }

  lemma Divided(a: nat, d: nat, q: nat, r: nat)
    requires d > 0 && a == q * d + r && r < d
    ensures a / d == q && a % d == r
  {
    var q', r' := a / d, a % d;
    assert q' * d + r' == q * d + r;
    if q < q' {
      Times(q + 1, q', d);
    } else if q' < q {
      Times(q' + 1, q, d);
    }
  }

  lemma Below(a: nat, d: nat, k: nat)
    requires d > 0
    ensures a < k * d <==> a / d < k
  {
    if a / d < k {
      Times(a / d + 1, k, d);
    } else {
      Times(k, a / d, d);
    }
  }

  /** Rounding up: more than k parts of size d are needed exactly when k of them are too few. */
  lemma Ceiling(a: nat, d: nat, k: nat)
    requires d > 0
    ensures k * d < a <==> k < CeilDiv(a, d)
  {
    Below(a + d - 1, d, k + 1);
  }

  // ---- Tuples ------------------------------------------------------------------------------------

  // The first place where two tuples differ.
  ghost predicate FirstDifference(a: seq<int>, b: seq<int>, i: int) {
    0 <= i < |a| && i < |b| && a[i] != b[i] && forall j :: 0 <= j < i ==> a[j] == b[j]
  }

  ghost predicate Before(a: seq<int>, b: seq<int>) {
    exists i :: FirstDifference(a, b, i) && a[i] < b[i]
  }

  lemma BeforeTransitive(a: seq<int>, b: seq<int>, c: seq<int>)
    requires |a| == |b| == |c| && Before(a, b) && Before(b, c)
    ensures Before(a, c)
  {
    var i :| FirstDifference(a, b, i) && a[i] < b[i];
    var j :| FirstDifference(b, c, j) && b[j] < c[j];
    assert FirstDifference(a, c, if i < j then i else j);
  }

  lemma BeforeAsymmetric(a: seq<int>, b: seq<int>)
    requires |a| == |b| && Before(a, b)
    ensures !Before(b, a)
  {
    var i :| FirstDifference(a, b, i) && a[i] < b[i];
    forall j | FirstDifference(b, a, j) ensures i == j {
      assert i <= j && j <= i;
    }
  }

  lemma {:induction false} DifferenceExists(a: seq<int>, b: seq<int>, from: nat, known: nat) returns (i: int)
    requires |a| == |b| && from <= known < |a| && a[known] != b[known]
    requires forall j :: 0 <= j < from ==> a[j] == b[j]
    ensures FirstDifference(a, b, i)
    decreases known - from
  {
    if a[from] != b[from] {
      i := from;
    } else {
      i := DifferenceExists(a, b, from + 1, known);
    }
  }

  // ---- Sets --------------------------------------------------------------------------------------

  lemma SubsetSize<T>(a: set<T>, b: set<T>)
    requires a <= b
    ensures |a| <= |b|
    ensures a != b ==> |a| < |b|
  {
    assert b == a + (b - a);
    assert a != b ==> b - a != {};
  }

  // ---- Things laid end to end --------------------------------------------------------------------

  datatype Extent<T> = Extent(offset: nat, length: nat, info: T)

  ghost predicate EndToEnd<T>(files: seq<Extent<T>>) {
    && (files != [] ==> files[0].offset == 0)
    && (forall j: nat :: j + 1 < |files| ==> Adjacent(files, j))
  }

  predicate Adjacent<T>(files: seq<Extent<T>>, j: nat)
    requires j + 1 < |files|
  {
    files[j + 1].offset == files[j].offset + files[j].length
  }

  function Total<T>(files: seq<Extent<T>>): nat {
    if |files| == 0 then 0 else files[|files| - 1].offset + files[|files| - 1].length
  }

  lemma {:induction false} OffsetsRise<T>(files: seq<Extent<T>>, j: nat, k: nat)
    requires EndToEnd(files) && j < k < |files|
    ensures files[j].offset + files[j].length <= files[k].offset
  {
    assert Adjacent(files, k - 1);
    if j + 1 < k {
      OffsetsRise(files, j, k - 1);
    }
  }

  lemma EndToEndMore<T>(files: seq<Extent<T>>, last: Extent<T>)
    requires EndToEnd(files) && last.offset == Total(files)
    ensures EndToEnd(files + [last])
  {
    var more := files + [last];
    forall j: nat | j + 1 < |more| ensures Adjacent(more, j) {
      assert j + 1 < |files| ==> Adjacent(files, j);
    }
  }
}
