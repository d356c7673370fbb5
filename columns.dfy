/** The columns the codec drives but does not implement: the column of unique keys that
    backs a global dictionary, and the dictionary-encoded column rows are appended to.
    Their operations are stand-ins whose contracts state what the codec relies on. */
module Columns {
  import opened Errors
  import opened Seqs
  import opened KeyTypes
  import opened Streams

  /** The distinct values of `s`, in order of first occurrence. */
  function Dedup(s: seq<Key>): (d: seq<Key>)
    ensures Distinct(d)
    ensures forall x :: x in d <==> x in s
    ensures |d| <= |s|
  {
    if s == [] then []
    else
      var p := s[..|s| - 1];
      assert forall x :: x in s <==> x in p || x == s[|s| - 1];
      var d := Dedup(p);
      if s[|s| - 1] in d then d else d + [s[|s| - 1]]
  }

  /** `cutAndCompact` of a dictionary-encoded column, given here by the row values of the cut
      range: the keys the range uses, each once, and each row's position among them. */
  function CutAndCompact(rows: seq<Key>): (r: (seq<nat>, seq<Key>))
    ensures Distinct(r.1) && |r.1| <= |rows|
    ensures forall k :: k in r.1 ==> k in rows
    ensures AllBelow(r.0, |r.1|) && Gather(r.1, r.0) == rows
  {
    var keys := Dedup(rows);
    var positions := seq(|rows|, i requires 0 <= i < |rows| => IndexOf(keys, rows[i]));
    (positions, keys)
  }

  /** The result of `uniqueInsertRangeWithOverflow`: the grown dictionary, the position of every
      inserted key, and the keys that did not fit, each once. */
  datatype IndexesWithOverflow = IndexesWithOverflow(dictionary: seq<Key>, indexes: seq<nat>, overflowedKeys: seq<Key>)

  /** Where `k` lands: its position in the dictionary, or past the dictionary's end, at its
      rank among the overflowed keys. */
  predicate Resolves(dictionary: seq<Key>, overflowedKeys: seq<Key>, position: nat, k: Key) {
    if position < |dictionary| then dictionary[position] == k
    else position - |dictionary| < |overflowedKeys| && overflowedKeys[position - |dictionary|] == k
  }

  /** Inserts `keys` in order into a dictionary bounded by `maxDictionarySize`: a key already
      present keeps its position, a new key is appended while there is room, and any other key
      overflows. */
  function InsertRangeWithOverflow(dictionary: seq<Key>, keys: seq<Key>, maxDictionarySize: nat): (r: IndexesWithOverflow)
    ensures |dictionary| <= |r.dictionary| && r.dictionary[..|dictionary|] == dictionary
    ensures |r.dictionary| > |dictionary| ==> |r.dictionary| <= maxDictionarySize
    ensures r.overflowedKeys != [] ==> |r.dictionary| >= maxDictionarySize
    ensures Distinct(dictionary) ==> Distinct(r.dictionary)
    ensures Distinct(r.overflowedKeys) && |r.overflowedKeys| <= |keys|
    ensures |r.dictionary| + |r.overflowedKeys| <= |dictionary| + |keys|
    ensures forall k :: k in r.overflowedKeys ==> k !in r.dictionary
    ensures |r.indexes| == |keys|
    ensures forall i :: 0 <= i < |keys| ==> Resolves(r.dictionary, r.overflowedKeys, r.indexes[i], keys[i])
  {
    if keys == [] then IndexesWithOverflow(dictionary, [], [])
    else
      var p := InsertRangeWithOverflow(dictionary, keys[..|keys| - 1], maxDictionarySize);
      var r := InsertKey(p, keys[|keys| - 1], maxDictionarySize);
      assert |r.dictionary| > |p.dictionary| ==> p.overflowedKeys == [];
      assert forall i :: 0 <= i < |keys| - 1 ==> r.indexes[i] == p.indexes[i];
      assert |r.overflowedKeys| <= |p.overflowedKeys| + 1;
      r
  }

  /** One step of the insertion: the key lands where it is, at the end of the dictionary, or
      among the overflowed keys. */
  function InsertKey(p: IndexesWithOverflow, k: Key, maxDictionarySize: nat): (r: IndexesWithOverflow)
    requires p.overflowedKeys != [] ==> |p.dictionary| >= maxDictionarySize
    requires forall x :: x in p.overflowedKeys ==> x !in p.dictionary
    ensures |r.indexes| == |p.indexes| + 1 && r.indexes[..|p.indexes|] == p.indexes
    ensures Resolves(r.dictionary, r.overflowedKeys, r.indexes[|p.indexes|], k)
    ensures r.dictionary == p.dictionary || (r.dictionary == p.dictionary + [k] && k !in p.dictionary
                                             && |r.dictionary| <= maxDictionarySize && r.overflowedKeys == [])
    ensures r.overflowedKeys == p.overflowedKeys || (r.overflowedKeys == p.overflowedKeys + [k] && k !in p.overflowedKeys
                                                     && r.dictionary == p.dictionary && k !in p.dictionary)
    ensures r.overflowedKeys != [] ==> |r.dictionary| >= maxDictionarySize
    ensures forall x :: x in r.overflowedKeys ==> x !in r.dictionary
    ensures forall q: nat, x :: Resolves(p.dictionary, p.overflowedKeys, q, x) ==> Resolves(r.dictionary, r.overflowedKeys, q, x)
  {
    if k in p.dictionary then
      IndexesWithOverflow(p.dictionary, p.indexes + [IndexOf(p.dictionary, k)], p.overflowedKeys)
    else if k in p.overflowedKeys then
      IndexesWithOverflow(p.dictionary, p.indexes + [|p.dictionary| + IndexOf(p.overflowedKeys, k)], p.overflowedKeys)
    else if |p.dictionary| < maxDictionarySize then
      IndexesWithOverflow(p.dictionary + [k], p.indexes + [|p.dictionary|], [])
    else
      IndexesWithOverflow(p.dictionary, p.indexes + [|p.dictionary| + |p.overflowedKeys|], p.overflowedKeys + [k])
  }

  /** A column of unique keys: the dictionary behind a dictionary-encoded column. */
  class ColumnUnique {
    const kind: ColumnKind
    const isNullable: bool
    var keys: seq<Key>

    constructor (kind: ColumnKind, isNullable: bool, keys: seq<Key>)
      ensures this.kind == kind && this.isNullable == isNullable && this.keys == keys
    {
      this.kind := kind;
      this.isNullable := isNullable;
      this.keys := keys;
    }

    method UniqueInsertRangeWithOverflow(src: seq<Key>, maxDictionarySize: nat) returns (indexes: seq<nat>, overflowedKeys: seq<Key>)
      modifies this
      ensures var r := InsertRangeWithOverflow(old(keys), src, maxDictionarySize);
        keys == r.dictionary && indexes == r.indexes && overflowedKeys == r.overflowedKeys
    {
      var r := InsertRangeWithOverflow(keys, src, maxDictionarySize);
      keys, indexes, overflowedKeys := r.dictionary, r.indexes, r.overflowedKeys;
    }
  }

  /** `createColumnUnique(keys_type)`: an empty dictionary of the kind the dispatch picks. */
  method CreateColumnUnique(keysType: DataType) returns (r: Result<ColumnUnique>)
    ensures CreateColumnUniqueImpl(keysType).Failure? ==> r == Failure(CreateColumnUniqueImpl(keysType).error)
    ensures CreateColumnUniqueImpl(keysType).Success? ==>
              && r.Success? && fresh(r.value) && r.value.keys == []
              && r.value.kind == CreateColumnUniqueImpl(keysType).value
              && r.value.isNullable == keysType.Nullable?
  {
    var kind :- CreateColumnUniqueImpl(keysType);
    var column := new ColumnUnique(kind, keysType.Nullable?, []);
    return Success(column);
  }

  /** `createColumnUnique(keys_type, keys)`: a dictionary over keys already read. */
  method CreateColumnUniqueWithKeys(keysType: DataType, keys: seq<Key>) returns (r: Result<ColumnUnique>)
    ensures CreateColumnUniqueImpl(keysType).Failure? ==> r == Failure(CreateColumnUniqueImpl(keysType).error)
    ensures CreateColumnUniqueImpl(keysType).Success? ==>
              && r.Success? && fresh(r.value) && r.value.keys == keys
              && r.value.kind == CreateColumnUniqueImpl(keysType).value
              && r.value.isNullable == keysType.Nullable?
  {
    var kind :- CreateColumnUniqueImpl(keysType);
    var column := new ColumnUnique(kind, keysType.Nullable?, keys);
    return Success(column);
  }

  /** A dictionary-encoded column, seen through its row values and the dictionary it shares
      (null while its dictionary is its own). */
  class ColumnWithDictionary {
    var values: seq<Key>
    var sharedDictionary: ColumnUnique?

    constructor (values: seq<Key>)
      ensures this.values == values && sharedDictionary == null
    {
      this.values := values;
      sharedDictionary := null;
    }

    /** Only an empty column can adopt a dictionary. */
    method SetSharedDictionary(dictionary: ColumnUnique?) returns (o: Outcome)
      requires values == []
      modifies this
      ensures o.Pass? <==> dictionary != null
      ensures o.Fail? ==> o.error == NullDictionary && unchanged(this)
      ensures o.Pass? ==> values == [] && sharedDictionary == dictionary
    {
      if dictionary == null {
        return Fail(NullDictionary);
      }
      sharedDictionary := dictionary;
      return Pass;
    }

    /** Appends the rows `positions` select from the keys of `dictionary`, which this column
        shares; the dictionary itself does not change. */
    method InsertRangeFrom(dictionary: ColumnUnique?, positions: seq<nat>) returns (o: Outcome)
      modifies this
      ensures o.Pass? <==> dictionary != null && AllBelow(positions, |dictionary.keys|)
      ensures o.Fail? ==> unchanged(this)
      ensures o.Fail? && dictionary == null ==> o.error == NullDictionary
      ensures o.Fail? && dictionary != null ==> o.error == IndexOutOfBound
      ensures o.Pass? ==> values == old(values) + Gather(dictionary.keys, positions)
      ensures sharedDictionary == old(sharedDictionary)
    {
      if dictionary == null {
        return Fail(NullDictionary);
      }
      if !AllBelow(positions, |dictionary.keys|) {
        return Fail(IndexOutOfBound);
      }
      values := values + Gather(dictionary.keys, positions);
      return Pass;
    }

    /** Appends the rows `positions` select from `keys`; the column's dictionary becomes its
        own, holding the keys it uses. */
    method InsertRangeFromDictionaryEncodedColumn(keys: Option<seq<Key>>, positions: seq<nat>) returns (o: Outcome)
      modifies this
      ensures o.Pass? <==> keys.Some? && AllBelow(positions, |keys.value|)
      ensures o.Fail? ==> unchanged(this)
      ensures o.Fail? && keys.None? ==> o.error == NullDictionary
      ensures o.Fail? && keys.Some? ==> o.error == IndexOutOfBound
      ensures o.Pass? ==> values == old(values) + Gather(keys.value, positions) && sharedDictionary == null
    {
      if keys.None? {
        return Fail(NullDictionary);
      }
      if !AllBelow(positions, |keys.value|) {
        return Fail(IndexOutOfBound);
      }
      values, sharedDictionary := values + Gather(keys.value, positions), null;
      return Pass;
    }
  }
}
