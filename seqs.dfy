/** Sequence helpers shared by the column model: distinctness, positions, gathering. */
module Seqs {

  function Min(a: nat, b: nat): nat {
    if a <= b then a else b
  }

  predicate Distinct<T(==)>(s: seq<T>) {
    forall j, k :: 0 <= j < k < |s| ==> s[j] != s[k]
  }

  predicate AllBelow(s: seq<nat>, bound: nat) {
    forall i :: 0 <= i < |s| ==> s[i] < bound
  }

  /** The position of `x` in `s`: the first one, which for a distinct `s` is the only one. */
  function IndexOf<T(==)>(s: seq<T>, x: T): (r: nat)
    requires x in s
    ensures r < |s| && s[r] == x
    ensures forall j :: 0 <= j < r ==> s[j] != x
  {
    if s[0] == x then 0 else 1 + IndexOf(s[1..], x)
  }

  lemma IndexOfDistinct<T>(s: seq<T>, j: nat)
    requires Distinct(s) && j < |s|
    ensures IndexOf(s, s[j]) == j
  {
  }

  /** `src.index(positions)`: the column whose i-th entry is `src[positions[i]]`. */
  function Gather<T>(src: seq<T>, positions: seq<nat>): (r: seq<T>)
    requires AllBelow(positions, |src|)
    ensures |r| == |positions|
    ensures forall i :: 0 <= i < |r| ==> r[i] == src[positions[i]]
  {
    seq(|positions|, i requires 0 <= i < |positions| => src[positions[i]])
  }

  /** The largest of `s`, and 0 for none. */
  function MaxIndex(s: seq<nat>): (m: nat)
    ensures forall i :: 0 <= i < |s| ==> s[i] <= m
    ensures s != [] ==> exists i :: 0 <= i < |s| && s[i] == m
  {
    if s == [] then 0
    else
      var m := MaxIndex(s[..|s| - 1]);
      if s[|s| - 1] > m then s[|s| - 1] else m
  }

  function Elements<T>(s: seq<T>): set<T> {
    set x | x in s
  }

  lemma {:induction false} DistinctCard<T>(s: seq<T>)
    requires Distinct(s)
    ensures |Elements(s)| == |s|
  {
    if s != [] {
      var p := s[..|s| - 1];
      DistinctCard(p);
      assert Elements(s) == Elements(p) + {s[|s| - 1]};
    }
  }

  /** The naturals below `b`. */
  function Range(b: nat): (r: set<nat>)
    ensures |r| == b
    ensures forall x: nat :: x in r <==> x < b
  {
    if b == 0 then {} else Range(b - 1) + {b - 1}
  }

  lemma SubsetCard<T>(a: set<T>, b: set<T>)
    requires a <= b
    ensures |a| <= |b|
  {
    assert b == a + (b - a);
    assert a * (b - a) == {};
  }

  /** Distinct naturals all below `b` number at most `b`. */
  lemma DistinctBelowBound(s: seq<nat>, b: nat)
    requires Distinct(s) && AllBelow(s, b)
    ensures |s| <= b
  {
    DistinctCard(s);
    SubsetCard(Elements(s), Range(b));
  }
}
