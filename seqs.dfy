/** Sequence helpers standing for JavaScript's `Array.prototype.filter` and `slice`. */
module Seqs {

  function Min(a: int, b: int): int { if a < b then a else b }

  /** `s.filter(p)`: the elements satisfying p, in their original order. */
  function Filter<T>(s: seq<T>, p: T -> bool): (r: seq<T>)
    ensures |r| <= |s|
    ensures forall i :: 0 <= i < |r| ==> r[i] in s && p(r[i])
    ensures forall i :: 0 <= i < |s| && p(s[i]) ==> s[i] in r
  {
    if s == [] then []
    else
      assert s == [s[0]] + s[1..];
      (if p(s[0]) then [s[0]] else []) + Filter(s[1..], p)
  }

  /** One unfolding of Filter. */
  lemma FilterCons<T>(x: T, rest: seq<T>, p: T -> bool)
    ensures Filter([x] + rest, p) == (if p(x) then [x] else []) + Filter(rest, p)
  {
    assert ([x] + rest)[1..] == rest;
  }

  /** The positions, from `from` on, of the elements that `Filter` keeps. */
  ghost function KeptIndices<T>(s: seq<T>, p: T -> bool, from: nat): seq<nat>
    decreases |s| - from
  {
    if from >= |s| then []
    else (if p(s[from]) then [from] else []) + KeptIndices(s, p, from + 1)
  }

  lemma {:induction false} KeptIndicesBounds<T>(s: seq<T>, p: T -> bool, from: nat, k: nat)
    requires k < |KeptIndices(s, p, from)|
    ensures from <= KeptIndices(s, p, from)[k] < |s|
    decreases |s| - from
  {
    if from < |s| {
      var head := if p(s[from]) then [from] else [];
      if k >= |head| {
        KeptIndicesBounds(s, p, from + 1, k - |head|);
      }
    }
  }

  /** KeptIndices is strictly increasing. */
  lemma {:induction false} KeptIndicesIncreasing<T>(s: seq<T>, p: T -> bool, from: nat, k: nat, l: nat)
    requires k < l < |KeptIndices(s, p, from)|
    ensures KeptIndices(s, p, from)[k] < KeptIndices(s, p, from)[l]
    decreases |s| - from
  {
    if p(s[from]) {
      KeptIndicesBounds(s, p, from + 1, l - 1);
      if k > 0 {
        KeptIndicesIncreasing(s, p, from + 1, k - 1, l - 1);
      }
    } else {
      KeptIndicesIncreasing(s, p, from + 1, k, l);
    }
  }

  /** One unfolding of Filter on a suffix. */
  lemma {:induction false} FilterSuffix<T>(s: seq<T>, p: T -> bool, from: nat)
    requires from < |s|
    ensures Filter(s[from..], p) == (if p(s[from]) then [s[from]] else []) + Filter(s[from + 1..], p)
  {
    assert s[from..][0] == s[from];
    assert s[from..][1..] == s[from + 1..];
  }

  /** Filtering the suffix from `from` keeps as many elements as KeptIndices lists. */
  lemma {:induction false} FilterLength<T>(s: seq<T>, p: T -> bool, from: nat)
    requires from <= |s|
    ensures |Filter(s[from..], p)| == |KeptIndices(s, p, from)|
    decreases |s| - from
  {
    if from < |s| {
      FilterSuffix(s, p, from);
      FilterLength(s, p, from + 1);
    }
  }

  /** The k-th kept element is the element at the k-th kept index. */
  lemma {:induction false} FilterElement<T>(s: seq<T>, p: T -> bool, from: nat, k: nat)
    requires from <= |s| && k < |KeptIndices(s, p, from)|
    ensures KeptIndices(s, p, from)[k] < |s|
    ensures |Filter(s[from..], p)| == |KeptIndices(s, p, from)|
    ensures Filter(s[from..], p)[k] == s[KeptIndices(s, p, from)[k]]
    decreases |s| - from
  {
    KeptIndicesBounds(s, p, from, k);
    FilterLength(s, p, from);
    FilterSuffix(s, p, from);
    if p(s[from]) {
      if k > 0 {
        FilterElement(s, p, from + 1, k - 1);
      }
    } else {
      FilterElement(s, p, from + 1, k);
    }
  }

  /** KeptIndices holds exactly the positions whose element satisfies p. */
  lemma {:induction false} KeptIndicesExact<T>(s: seq<T>, p: T -> bool, from: nat, i: nat)
    requires from <= i < |s|
    ensures p(s[i]) <==> i in KeptIndices(s, p, from)
    decreases |s| - from
  {
    var rest := KeptIndices(s, p, from + 1);
    assert KeptIndices(s, p, from) == (if p(s[from]) then [from] else []) + rest;
    if i == from {
      if from in rest {
        var k :| 0 <= k < |rest| && rest[k] == from;
        KeptIndicesBounds(s, p, from + 1, k);
      }
    } else {
      KeptIndicesExact(s, p, from + 1, i);
    }
  }

  /** `s.filter(p)` is the order-preserving subsequence of the elements satisfying p. */
  lemma FilterIsOrderedSubsequence<T>(s: seq<T>, p: T -> bool)
    ensures var r, ix := Filter(s, p), KeptIndices(s, p, 0);
      |r| == |ix| &&
      (forall k :: 0 <= k < |ix| ==> ix[k] < |s| && r[k] == s[ix[k]]) &&
      (forall k, l :: 0 <= k < l < |ix| ==> ix[k] < ix[l]) &&
      (forall i :: 0 <= i < |s| ==> (p(s[i]) <==> i in ix))
  {
    assert s[0..] == s;
    FilterLength(s, p, 0);
    forall k | 0 <= k < |KeptIndices(s, p, 0)|
      ensures KeptIndices(s, p, 0)[k] < |s| && Filter(s, p)[k] == s[KeptIndices(s, p, 0)[k]]
    {
      FilterElement(s, p, 0, k);
    }
    forall i | 0 <= i < |s| ensures p(s[i]) <==> i in KeptIndices(s, p, 0) {
      KeptIndicesExact(s, p, 0, i);
    }
    forall k, l | 0 <= k < l < |KeptIndices(s, p, 0)|
      ensures KeptIndices(s, p, 0)[k] < KeptIndices(s, p, 0)[l]
    {
      KeptIndicesIncreasing(s, p, 0, k, l);
    }
  }

  /** Two one-element sequences laid end to end are the two-element display. */
  lemma PairDisplay<T>(x: T, y: T)
    ensures [x] + [y] == [x, y]
  {
  }
}
