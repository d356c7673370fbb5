/** The overflow remapper used when a chunk's indexes reference both the global dictionary
    (values below `maxVal`) and the chunk's additional keys (values from `maxVal` on, offset
    by `maxVal`). It keeps only the global entries actually referenced, in order of first
    use, and renumbers the indexes so that they point into "those entries, then the
    additional keys". */
module OverflowRemap {
  import opened Seqs

  /** The distinct values of `s` below `maxVal`, in order of first occurrence. */
  function Compacted(s: seq<nat>, maxVal: nat): (c: seq<nat>)
    ensures Distinct(c)
    ensures AllBelow(c, maxVal)
    ensures forall x :: x in c <==> x in s && x < maxVal
  {
    if s == [] then []
    else
      var c := Compacted(s[..|s| - 1], maxVal);
      var v := s[|s| - 1];
      assert s == s[..|s| - 1] + [v];
      if v < maxVal && v !in c then c + [v] else c
  }

  /** The rewritten indexes: a value below `maxVal` becomes its rank among the compacted
      values, any other value `v` becomes `v - maxVal + N`, N the number of compacted values. */
  function Remapped(s: seq<nat>, maxVal: nat): (r: seq<nat>)
    ensures |r| == |s|
  {
    var c := Compacted(s, maxVal);
    seq(|s|, i requires 0 <= i < |s| => if s[i] < maxVal then IndexOf(c, s[i]) else s[i] - maxVal + |c|)
  }

  /** Remaps `index` in place and returns the compacted map of referenced values below `maxVal`. */
  method MapIndexWithOverflow(index: array<nat>, maxVal: nat) returns (indexMap: array<nat>)
    modifies index
    ensures fresh(indexMap)
    ensures indexMap[..] == Compacted(old(index[..]), maxVal)
    ensures index[..] == Remapped(old(index[..]), maxVal)
  {
    var hashMap := BuildRanks(index, maxVal);
    indexMap := RanksToColumn(hashMap, Compacted(index[..], maxVal));
    RewriteIndexes(index, maxVal, hashMap);
  }

  /** First pass: hands out ranks to the values below `maxVal` in order of first occurrence. */
  method BuildRanks(index: array<nat>, maxVal: nat) returns (hashMap: map<nat, nat>)
    ensures RankMap(hashMap, Compacted(index[..], maxVal))
  {
    hashMap := map[];
    ghost var c: seq<nat> := [];
    for i := 0 to index.Length
      invariant c == Compacted(index[..i], maxVal)
      invariant RankMap(hashMap, c)
    {
      var v := index[i];
      assert index[..i + 1] == index[..i] + [v];
      if v < maxVal {
        if v !in hashMap {  // inserting an existing key leaves its rank alone
          hashMap := hashMap[v := |hashMap|];
          c := c + [v];
        }
      }
    }
    assert index[..] == index[..index.Length];
  }

  /** Second pass: lays the ranked values out as a column, entry k holding the value of rank k. */
  method RanksToColumn(hashMap: map<nat, nat>, ghost c: seq<nat>) returns (indexMap: array<nat>)
    requires RankMap(hashMap, c) && Distinct(c)
    ensures fresh(indexMap)
    ensures indexMap[..] == c
  {
    indexMap := new nat[|hashMap|];
    var rest := hashMap.Keys;
    while rest != {}
      invariant rest <= hashMap.Keys
      invariant forall j :: 0 <= j < |c| && c[j] !in rest ==> indexMap[j] == c[j]
      decreases rest
    {
      var v :| v in rest;
      assert c[hashMap[v]] == v;
      indexMap[hashMap[v]] := v;
      rest := rest - {v};
    }
  }

  /** Third pass: rewrites every index through the ranks, or shifts it past them. */
  method RewriteIndexes(index: array<nat>, maxVal: nat, hashMap: map<nat, nat>)
    requires RankMap(hashMap, Compacted(index[..], maxVal))
    modifies index
    ensures index[..] == Remapped(old(index[..]), maxVal)
  {
    ghost var r := Remapped(old(index[..]), maxVal);
    for i := 0 to index.Length
      invariant forall k :: 0 <= k < i ==> index[k] == r[k]
      invariant forall k :: i <= k < index.Length ==> index[k] == old(index[k])
    {
      var v := index[i];
      RemappedAt(old(index[..]), maxVal, hashMap, i);
      index[i] := if v < maxVal then hashMap[v] else v - maxVal + |hashMap|;
    }
  }

  /** `m` maps each compacted value to its rank. */
  ghost predicate RankMap(m: map<nat, nat>, c: seq<nat>) {
    && (forall x :: x in m <==> x in c)
    && (forall x :: x in m ==> m[x] < |c| && c[m[x]] == x)
    && |m| == |c|
  }

  lemma RemappedAt(s: seq<nat>, maxVal: nat, m: map<nat, nat>, i: nat)
    requires RankMap(m, Compacted(s, maxVal)) && i < |s|
    ensures s[i] < maxVal ==> s[i] in m && Remapped(s, maxVal)[i] == m[s[i]]
    ensures s[i] >= maxVal ==> Remapped(s, maxVal)[i] == s[i] - maxVal + |m|
  {
    var c := Compacted(s, maxVal);
    if s[i] < maxVal {
      assert s[i] in c;
      IndexOfDistinct(c, m[s[i]]);
    }
  }

  /** At most `maxVal` values are compacted: they are distinct and all below `maxVal`. */
  lemma CompactedSize(s: seq<nat>, maxVal: nat)
    ensures |Compacted(s, maxVal)| <= maxVal
  {
    DistinctBelowBound(Compacted(s, maxVal), maxVal);
  }

  /** N is the number of distinct values below `maxVal` in the input. */
  lemma CompactedCount(s: seq<nat>, maxVal: nat)
    ensures |Compacted(s, maxVal)| == |set x | x in s && x < maxVal|
  {
    var c := Compacted(s, maxVal);
    DistinctCard(c);
    assert Elements(c) == set x | x in s && x < maxVal;
  }

  /** Ranks follow first occurrence, not numeric order: every value ranked before `c[k]`
      occurs in the input before any occurrence of `c[k]`. */
  lemma {:induction false} CompactedInFirstOccurrenceOrder(s: seq<nat>, maxVal: nat, j: nat, k: nat, i: nat)
    requires j < k < |Compacted(s, maxVal)|
    requires i < |s| && s[i] == Compacted(s, maxVal)[k]
    ensures Compacted(s, maxVal)[j] in s[..i]
  {
    var n := |s|;
    var p := s[..n - 1];
    var cp := Compacted(p, maxVal);
    assert s == p + [s[n - 1]];
    if i < n - 1 {
      if k < |cp| {
        CompactedInFirstOccurrenceOrder(p, maxVal, j, k, i);
        assert p[..i] == s[..i];
      }
    } else {
      assert s[..i] == p;
    }
  }

  /** The contract of the remapper: the length is kept; a value below `maxVal` is rewritten
      to a rank whose map entry is that value; any other value `v` to `v - maxVal + N`,
      which is never larger than `v`. */
  lemma RemapContract(s: seq<nat>, maxVal: nat, i: nat)
    requires i < |s|
    ensures var c := Compacted(s, maxVal); var r := Remapped(s, maxVal);
      && |r| == |s|
      && (s[i] < maxVal ==> r[i] < |c| && c[r[i]] == s[i])
      && (s[i] >= maxVal ==> r[i] == s[i] - maxVal + |c| && r[i] <= s[i])
  {
    CompactedSize(s, maxVal);
  }

  /** The rewritten indexes fit the width of the original ones, so the rewrite can stay in place. */
  lemma RemapKeepsWidth(s: seq<nat>, maxVal: nat, bound: nat)
    requires AllBelow(s, bound)
    ensures AllBelow(Remapped(s, maxVal), bound)
  {
    var c := Compacted(s, maxVal);
    forall j | 0 <= j < |c| ensures c[j] < bound {
      assert c[j] in s;
    }
    DistinctBelowBound(c, bound);
    forall i | 0 <= i < |s| ensures Remapped(s, maxVal)[i] < bound {
      RemapContract(s, maxVal, i);
    }
  }

  /** The mixed case of row reconstruction: with the global dictionary `g` gathered at the
      compacted map and the additional keys `a` appended, every rewritten index resolves to
      the key its original index referenced. */
  lemma CaseCResolution<K>(g: seq<K>, a: seq<K>, s: seq<nat>, i: nat)
    requires i < |s| && s[i] < |g| + |a|
    ensures var keys := Gather(g, Compacted(s, |g|)) + a; var r := Remapped(s, |g|);
      && r[i] < |keys|
      && keys[r[i]] == if s[i] < |g| then g[s[i]] else a[s[i] - |g|]
  {
    RemapContract(s, |g|, i);
  }
}
