/** What one call of the encoder writes, as functions of the global dictionary it extends:
    the chunk it appends to the indexes substream, what it writes to the keys substream when a
    full dictionary is replaced, and the dictionary it leaves for the next call. */
module Serialization {
  import opened Errors
  import opened Seqs
  import opened Streams
  import opened IndexesSerializationType
  import opened Columns
  import opened ChunkFormat

  /** The two settings the encoder reads: the capacity of the global dictionary (0 for none)
      and whether a full dictionary is written out and replaced by an empty one. */
  datatype Settings = Settings(maxDictionarySize: nat, useNewDictionaryOnOverflow: bool)

  /** The number of rows one call encodes: `limit` rows from `offset`, 0 meaning all the rest,
      never past the end of the column. */
  function RowCount(size: nat, offset: nat, limit: nat): (n: nat)
    requires offset <= size
    ensures n <= size - offset && (limit != 0 ==> n <= limit)
    ensures n == size - offset || n == limit
    ensures limit == 0 ==> n == size - offset
  {
    if limit == 0 then size - offset else Min(limit, size - offset)
  }

  /** A dictionary as the keys substream holds it: its size, then its keys. */
  function DictionaryTokens(keys: seq<Key>): seq<Token>
    requires |keys| < U64Limit
  {
    [Word(|keys| as uint64)] + KeyTokens(keys)
  }

  /** The keys a chunk's positions refer to, given whether a global dictionary is in use. */
  function PositionKeys(useGlobal: bool, dictionary: seq<Key>, additionalKeys: seq<Key>): seq<Key> {
    if useGlobal then dictionary + additionalKeys else additionalKeys
  }

  /** A chunk's rows once compacted: a position per row, the keys that are not in the global
      dictionary, and the global dictionary after the chunk's keys went into it. */
  datatype ChunkIndexes = ChunkIndexes(positions: seq<nat>, additionalKeys: seq<Key>, dictionary: seq<Key>)

  /** `cutAndCompact`, then (with a global dictionary) `uniqueInsertRangeWithOverflow` and the
      re-indexing of the positions through the indexes it returns. */
  function IndexChunk(global: seq<Key>, rows: seq<Key>, maxDictionarySize: nat): (r: ChunkIndexes)
    ensures var keys := PositionKeys(maxDictionarySize != 0, r.dictionary, r.additionalKeys);
      AllBelow(r.positions, |keys|) && Gather(keys, r.positions) == rows
    ensures |global| <= |r.dictionary| && r.dictionary[..|global|] == global
    ensures |r.dictionary| > |global| ==> |r.dictionary| <= maxDictionarySize
    ensures maxDictionarySize != 0 && r.additionalKeys != [] ==> |r.dictionary| >= maxDictionarySize
    ensures |r.additionalKeys| <= |rows|
    ensures |r.dictionary| + |r.additionalKeys| <= |global| + |rows|
  {
    var (positions, keys) := CutAndCompact(rows);
    if maxDictionarySize == 0 then ChunkIndexes(positions, keys, global)
    else
      var inserted := InsertRangeWithOverflow(global, keys, maxDictionarySize);
      GatherThroughInserted(rows, positions, keys, inserted);
      ChunkIndexes(Gather(inserted.indexes, positions), inserted.overflowedKeys, inserted.dictionary)
  }

  /** Re-indexing the compacted positions through where each key landed selects the same rows
      from the grown dictionary followed by the overflowed keys. */
  lemma GatherThroughInserted(rows: seq<Key>, positions: seq<nat>, keys: seq<Key>, inserted: IndexesWithOverflow)
    requires AllBelow(positions, |keys|) && Gather(keys, positions) == rows
    requires |inserted.indexes| == |keys|
    requires forall i :: 0 <= i < |keys| ==> Resolves(inserted.dictionary, inserted.overflowedKeys, inserted.indexes[i], keys[i])
    ensures var all := inserted.dictionary + inserted.overflowedKeys;
      var remapped := Gather(inserted.indexes, positions);
      AllBelow(remapped, |all|) && Gather(all, remapped) == rows
  {
    var all := inserted.dictionary + inserted.overflowedKeys;
    var remapped := Gather(inserted.indexes, positions);
    forall i | 0 <= i < |rows|
      ensures remapped[i] < |all| && all[remapped[i]] == rows[i]
    {
      assert Resolves(inserted.dictionary, inserted.overflowedKeys, inserted.indexes[positions[i]], keys[positions[i]]);
    }
  }

  /** What one call produces: its chunk, the tokens it writes to the keys substream, the
      dictionary the chunk refers to, and the global dictionary it leaves. */
  datatype Encoded = Encoded(chunk: Chunk, dictionaryWrite: seq<Token>, dictionary: seq<Key>, global: seq<Key>)

  /** The capacity is a 64-bit setting, and the dictionary the call starts from together with
      its rows has fewer than 2^64 keys: every count the call writes then fits in a word. */
  predicate Fits(global: seq<Key>, rows: seq<Key>, settings: Settings) {
    |global| + |rows| < U64Limit && settings.maxDictionarySize < U64Limit
  }

  /** The chunk of compacted rows: its header declares the narrowest index width that holds
      every position, whether it has additional keys, and whether it uses a global dictionary. */
  function ChunkOf(x: ChunkIndexes, useGlobal: bool): (c: Chunk)
    requires |x.positions| < U64Limit && |PositionKeys(useGlobal, x.dictionary, x.additionalKeys)| < U64Limit
    requires AllBelow(x.positions, |PositionKeys(useGlobal, x.dictionary, x.additionalKeys)|)
    ensures Sized(c) && c.indexes == x.positions && c.additionalKeys == x.additionalKeys
    ensures c.header.needGlobalDictionary == useGlobal
    ensures c.header.hasAdditionalKeys <==> c.additionalKeys != []
    ensures AllBelow(c.indexes, Bound(c.header.indexType))
  {
    var m := MaxIndex(x.positions);
    assert m < U64Limit by {
      if x.positions != [] {
        var i :| 0 <= i < |x.positions| && x.positions[i] == m;
      }
    }
    Chunk(Header(FitIndexType(m), x.additionalKeys != [], useGlobal), x.additionalKeys, x.positions)
  }

  /** The chunk step of serializeBinaryBulkWithMultipleStreams on the rows of one call. */
  function EncodeChunk(global: seq<Key>, rows: seq<Key>, settings: Settings): (e: Encoded)
    requires Fits(global, rows, settings)
    ensures Sized(e.chunk) && |e.chunk.indexes| == |rows|
    ensures |e.global| <= |global| || |e.global| <= settings.maxDictionarySize
    ensures |e.global| <= |global| + |rows|
  {
    var cap := settings.maxDictionarySize;
    var x := IndexChunk(global, rows, cap);
    assert |x.dictionary| <= |global| || |x.dictionary| <= cap;
    var chunk := ChunkOf(x, cap != 0);
    if settings.useNewDictionaryOnOverflow && |x.dictionary| >= cap then
      Encoded(chunk, DictionaryTokens(x.dictionary), x.dictionary, [])
    else
      Encoded(chunk, [], x.dictionary, x.dictionary)
  }

  /** The flags of a chunk: it uses the global dictionary exactly when a capacity is set, and
      has additional keys exactly when some keys did not fit; its indexes fit the declared
      width. The global dictionary only grows, never past the capacity, and not at all without
      one; once it has reached the capacity and replacement is on, it is written to the keys
      substream and replaced by an empty one. */
  lemma EncodeChunkFacts(global: seq<Key>, rows: seq<Key>, settings: Settings)
    requires Fits(global, rows, settings)
    ensures var e := EncodeChunk(global, rows, settings);
      && (e.chunk.header.needGlobalDictionary <==> settings.maxDictionarySize != 0)
      && (e.chunk.header.hasAdditionalKeys <==> e.chunk.additionalKeys != [])
      && AllBelow(e.chunk.indexes, Bound(e.chunk.header.indexType))
      && |global| <= |e.dictionary| && e.dictionary[..|global|] == global
      && (|e.dictionary| > |global| ==> |e.dictionary| <= settings.maxDictionarySize)
      && (settings.maxDictionarySize == 0 ==> e.dictionary == global)
      && (e.dictionaryWrite != [] <==> settings.useNewDictionaryOnOverflow && |e.dictionary| >= settings.maxDictionarySize)
      && (e.dictionaryWrite != [] ==>
            |e.dictionary| < U64Limit && e.dictionaryWrite == DictionaryTokens(e.dictionary) && e.global == [])
      && (e.dictionaryWrite == [] ==> e.global == e.dictionary)
  {
  }

  /** How the chunk step is put together from the compacted rows: the chunk carries them under
      a header of the narrowest fitting width, and the full dictionary is written out and
      replaced exactly when replacement is on and it has reached the capacity. */
  lemma EncodeChunkShape(global: seq<Key>, rows: seq<Key>, settings: Settings)
    requires Fits(global, rows, settings)
    ensures var x := IndexChunk(global, rows, settings.maxDictionarySize);
      var e := EncodeChunk(global, rows, settings);
      var replace := settings.useNewDictionaryOnOverflow && |x.dictionary| >= settings.maxDictionarySize;
      && |x.positions| < U64Limit && |x.additionalKeys| < U64Limit && |x.dictionary| < U64Limit
      && e.chunk == Chunk(Header(FitIndexType(MaxIndex(x.positions)), x.additionalKeys != [], settings.maxDictionarySize != 0),
                          x.additionalKeys, x.positions)
      && (replace ==> e.dictionaryWrite == DictionaryTokens(x.dictionary) && e.global == [])
      && (!replace ==> e.dictionaryWrite == [] && e.global == x.dictionary)
  {
    var x := IndexChunk(global, rows, settings.maxDictionarySize);
    assert |x.dictionary| <= |global| || |x.dictionary| <= settings.maxDictionarySize;
  }

  /** A chunk refers to the dictionary as it was when the chunk was written. Read back against
      any later state of that dictionary, which only grew and did not grow at all once full,
      every index selects the row it was written for. */
  lemma EncodeChunkDecodes(global: seq<Key>, rows: seq<Key>, settings: Settings, final: seq<Key>)
    requires Fits(global, rows, settings)
    requires settings.maxDictionarySize != 0 || rows != []
    requires var e := EncodeChunk(global, rows, settings);
      && |e.dictionary| <= |final| && final[..|e.dictionary|] == e.dictionary
      && (|e.dictionary| >= settings.maxDictionarySize ==> final == e.dictionary)
    ensures WellFormed(EncodeChunk(global, rows, settings).chunk, final)
    ensures ChunkRows(EncodeChunk(global, rows, settings).chunk, final) == rows
  {
    var cap := settings.maxDictionarySize;
    var x := IndexChunk(global, rows, cap);
    EncodeChunkFacts(global, rows, settings);
    EncodeChunkShape(global, rows, settings);
    CompactedChunkDecodes(x, EncodeChunk(global, rows, settings).chunk, cap, rows, final);
  }

  /** A chunk built from compacted rows, read against a global dictionary that extends the one
      its positions refer to (and equals it once additional keys were needed), stands for the rows. */
  lemma CompactedChunkDecodes(x: ChunkIndexes, c: Chunk, cap: nat, rows: seq<Key>, final: seq<Key>)
    requires Sized(c) && c.indexes == x.positions && c.additionalKeys == x.additionalKeys
    requires c.header.needGlobalDictionary == (cap != 0) && (c.header.hasAdditionalKeys <==> c.additionalKeys != [])
    requires AllBelow(c.indexes, Bound(c.header.indexType))
    requires var keys := PositionKeys(cap != 0, x.dictionary, x.additionalKeys);
      AllBelow(x.positions, |keys|) && Gather(keys, x.positions) == rows
    requires cap != 0 || rows != []
    requires cap != 0 ==> |x.dictionary| <= |final| && final[..|x.dictionary|] == x.dictionary
    requires cap != 0 && x.additionalKeys != [] ==> final == x.dictionary
    ensures WellFormed(c, final) && ChunkRows(c, final) == rows
  {
    var keys := PositionKeys(cap != 0, x.dictionary, x.additionalKeys);
    if cap == 0 {
      assert ChunkKeys(c, final) == keys;
      assert |x.positions| == |rows| && x.positions[0] < |keys|;
    } else {
      forall i | 0 <= i < |c.indexes|
        ensures c.indexes[i] < |ChunkKeys(c, final)| && ChunkKeys(c, final)[c.indexes[i]] == rows[i]
      {
        if c.indexes[i] >= |x.dictionary| {
          assert x.additionalKeys != [];
        }
      }
    }
  }

  /** The rows of several calls, one after another. */
  function Flatten(calls: seq<seq<Key>>): seq<Key> {
    if calls == [] then [] else calls[0] + Flatten(calls[1..])
  }

  /** What a run of calls produces: a chunk per call, everything written to the keys substream
      by the calls, and the global dictionary left for the suffix. */
  datatype Encoding = Encoding(chunks: seq<Chunk>, keysWritten: seq<Token>, global: seq<Key>)

  /** A run of calls fits when the dictionary it starts from together with all its rows does. */
  predicate AllFit(global: seq<Key>, calls: seq<seq<Key>>, settings: Settings) {
    Fits(global, Flatten(calls), settings)
  }

  /** The first call of a run that fits fits, and so do the others, from a dictionary that
      grew by no more than the first call's rows. */
  lemma FitsRest(global: seq<Key>, next: seq<Key>, calls: seq<seq<Key>>, settings: Settings)
    requires calls != [] && AllFit(global, calls, settings)
    requires |next| <= |global| + |calls[0]|
    ensures Fits(global, calls[0], settings) && AllFit(next, calls[1..], settings)
  {
    assert Flatten(calls) == calls[0] + Flatten(calls[1..]);
  }

  /** The first call of a run that fits fits. */
  lemma FitsFirst(global: seq<Key>, calls: seq<seq<Key>>, settings: Settings)
    requires calls != [] && AllFit(global, calls, settings)
    ensures Fits(global, calls[0], settings)
  {
    assert Flatten(calls) == calls[0] + Flatten(calls[1..]);
  }

  /** Successive calls of the encoder, each on the dictionary the previous one left. */
  function EncodeCalls(global: seq<Key>, calls: seq<seq<Key>>, settings: Settings): (r: Encoding)
    requires |global| <= settings.maxDictionarySize || settings.maxDictionarySize == 0
    requires AllFit(global, calls, settings)
    ensures |r.chunks| == |calls| && forall i :: 0 <= i < |r.chunks| ==> Sized(r.chunks[i])
    ensures |r.global| <= |global| || |r.global| <= settings.maxDictionarySize
    decreases |calls|
  {
    if calls == [] then Encoding([], [], global)
    else
      FitsFirst(global, calls, settings);
      var e := EncodeChunk(global, calls[0], settings);
      FitsRest(global, e.global, calls, settings);
      var rest := EncodeCalls(e.global, calls[1..], settings);
      SizedCons(e.chunk, rest.chunks);
      Encoding([e.chunk] + rest.chunks, e.dictionaryWrite + rest.keysWritten, rest.global)
  }

  lemma SizedCons(c: Chunk, cs: seq<Chunk>)
    requires Sized(c) && forall i :: 0 <= i < |cs| ==> Sized(cs[i])
    ensures forall i :: 0 <= i < |[c] + cs| ==> Sized(([c] + cs)[i])
  {
    forall i | 0 <= i < |[c] + cs|
      ensures Sized(([c] + cs)[i])
    {
      if i > 0 {
        assert ([c] + cs)[i] == cs[i - 1];
      }
    }
  }

  /** Without dictionary replacement a call writes nothing to the keys substream and keeps
      the dictionary it grew, which it leaves as it was once full. */
  lemma EncodeChunkGrows(global: seq<Key>, rows: seq<Key>, settings: Settings)
    requires !settings.useNewDictionaryOnOverflow && Fits(global, rows, settings)
    ensures var e := EncodeChunk(global, rows, settings);
      && e.dictionaryWrite == [] && |global| <= |e.global| && e.global[..|global|] == global
      && (|global| >= settings.maxDictionarySize ==> e.global == global)
  {
    EncodeChunkFacts(global, rows, settings);
    var e := EncodeChunk(global, rows, settings);
    if |global| >= settings.maxDictionarySize {
      assert e.global == e.global[..|global|];
    }
  }

  /** Without dictionary replacement the calls write nothing to the keys substream, and the
      global dictionary only grows and stops growing once full. */
  lemma {:induction false} EncodeCallsDictionary(global: seq<Key>, calls: seq<seq<Key>>, settings: Settings)
    requires !settings.useNewDictionaryOnOverflow
    requires |global| <= settings.maxDictionarySize || settings.maxDictionarySize == 0
    requires AllFit(global, calls, settings)
    decreases |calls|
    ensures var r := EncodeCalls(global, calls, settings);
      && r.keysWritten == []
      && |global| <= |r.global| && r.global[..|global|] == global
      && (|global| >= settings.maxDictionarySize ==> r.global == global)
  {
    EncodeCallsWriteNothing(global, calls, settings);
    if calls != [] {
      FitsFirst(global, calls, settings);
      var e := EncodeChunk(global, calls[0], settings);
      EncodeChunkGrows(global, calls[0], settings);
      FitsRest(global, e.global, calls, settings);
      var rest := EncodeCalls(e.global, calls[1..], settings);
      EncodeCallsDictionary(e.global, calls[1..], settings);
      assert EncodeCalls(global, calls, settings).global == rest.global;
      assert rest.global[..|global|] == rest.global[..|e.global|][..|global|];
    }
  }

  /** Without dictionary replacement the calls write nothing to the keys substream. */
  lemma {:induction false} EncodeCallsWriteNothing(global: seq<Key>, calls: seq<seq<Key>>, settings: Settings)
    requires !settings.useNewDictionaryOnOverflow
    requires |global| <= settings.maxDictionarySize || settings.maxDictionarySize == 0
    requires AllFit(global, calls, settings)
    decreases |calls|
    ensures EncodeCalls(global, calls, settings).keysWritten == []
  {
    if calls != [] {
      FitsFirst(global, calls, settings);
      var e := EncodeChunk(global, calls[0], settings);
      EncodeChunkGrows(global, calls[0], settings);
      FitsRest(global, e.global, calls, settings);
      EncodeCallsWriteNothing(e.global, calls[1..], settings);
    }
  }

  /** Without dictionary replacement every chunk is well formed against the final global
      dictionary and refers to it exactly when a capacity is set, and the chunks stand for the
      rows of the calls in order. */
  lemma {:induction false} EncodeCallsDecodes(global: seq<Key>, calls: seq<seq<Key>>, settings: Settings)
    requires !settings.useNewDictionaryOnOverflow
    requires |global| <= settings.maxDictionarySize || settings.maxDictionarySize == 0
    requires AllFit(global, calls, settings)
    requires settings.maxDictionarySize != 0 || forall i :: 0 <= i < |calls| ==> calls[i] != []
    decreases |calls|
    ensures var r := EncodeCalls(global, calls, settings);
      && AllWellFormed(r.chunks, r.global)
      && (forall i :: 0 <= i < |r.chunks| ==>
            (r.chunks[i].header.needGlobalDictionary <==> settings.maxDictionarySize != 0))
      && StreamRows(r.chunks, r.global) == Flatten(calls)
  {
    if calls != [] {
      var r := EncodeCalls(global, calls, settings);
      FitsFirst(global, calls, settings);
      var e := EncodeChunk(global, calls[0], settings);
      EncodeChunkFacts(global, calls[0], settings);
      FitsRest(global, e.global, calls, settings);
      var rest := EncodeCalls(e.global, calls[1..], settings);
      EncodeCallsDecodes(e.global, calls[1..], settings);
      EncodeCallsDictionary(e.global, calls[1..], settings);
      assert r.chunks == [e.chunk] + rest.chunks && r.global == rest.global;
      EncodeChunkDecodes(global, calls[0], settings, rest.global);
      forall i | 0 <= i < |r.chunks|
        ensures WellFormed(r.chunks[i], r.global)
        ensures r.chunks[i].header.needGlobalDictionary <==> settings.maxDictionarySize != 0
      {
        if i > 0 {
          assert r.chunks[i] == rest.chunks[i - 1];
        }
      }
      assert r.chunks[1..] == rest.chunks;
    }
  }
}
