/** The encoder as the program runs it: a state object holding the global dictionary, updated
    in place by the prefix, chunk and suffix steps, which write to the two substreams. Each
    step is proved to write what the functions of the Serialization module describe. */
module Serializer {
  import opened Errors
  import opened Seqs
  import opened KeyTypes
  import opened Streams
  import opened IndexesSerializationType
  import opened KeysSerializationVersion
  import opened Columns
  import opened ChunkFormat
  import opened Serialization

  /** The state one encoding session carries from call to call. */
  class SerializeStateWithDictionary {
    const keyVersion: nat
    var globalDictionary: ColumnUnique

    constructor (keyVersion: nat, globalDictionary: ColumnUnique)
      ensures this.keyVersion == keyVersion && this.globalDictionary == globalDictionary
    {
      this.keyVersion := keyVersion;
      this.globalDictionary := globalDictionary;
    }
  }

  /** serializeBinaryBulkStatePrefix: writes the keys version, then starts a session with an
      empty global dictionary of the kind the key type calls for. */
  method SerializeBinaryBulkStatePrefix(dictionaryType: DataType, keysStream: WriteBuffer?)
    returns (r: Result<SerializeStateWithDictionary>)
    modifies keysStream
    ensures keysStream == null ==> r == Failure(EmptyKeysStream)
    ensures keysStream != null ==>
      keysStream.tokens == old(keysStream.tokens) + [Word(SingleDictionaryWithAdditionalKeysPerBlock as uint64)]
    ensures keysStream != null && CreateColumnUniqueImpl(dictionaryType).Failure? ==>
      r == Failure(CreateColumnUniqueImpl(dictionaryType).error)
    ensures keysStream != null && CreateColumnUniqueImpl(dictionaryType).Success? ==>
      && r.Success? && fresh(r.value) && fresh(r.value.globalDictionary)
      && r.value.keyVersion == SingleDictionaryWithAdditionalKeysPerBlock
      && r.value.globalDictionary.keys == []
      && r.value.globalDictionary.kind == CreateColumnUniqueImpl(dictionaryType).value
  {
    if keysStream == null {
      return Failure(EmptyKeysStream);
    }
    var keyVersion := SingleDictionaryWithAdditionalKeysPerBlock;
    keysStream.Write([Word(keyVersion as uint64)]);
    var columnUnique :- CreateColumnUnique(dictionaryType);
    var state := new SerializeStateWithDictionary(keyVersion, columnUnique);
    return Success(state);
  }

  /** serializeBinaryBulkStateSuffix: with a capacity set, writes the global dictionary to the
      keys substream. */
  method SerializeBinaryBulkStateSuffix(settings: Settings, state: SerializeStateWithDictionary, keysStream: WriteBuffer?)
    returns (o: Outcome)
    requires |state.globalDictionary.keys| < U64Limit
    modifies keysStream
    ensures CheckVersion(state.keyVersion).Fail? ==> o == CheckVersion(state.keyVersion)
    ensures CheckVersion(state.keyVersion).Fail? || settings.maxDictionarySize == 0 || keysStream == null ==>
      keysStream == null || keysStream.tokens == old(keysStream.tokens)
    ensures CheckVersion(state.keyVersion).Pass? && settings.maxDictionarySize == 0 ==> o == Pass
    ensures CheckVersion(state.keyVersion).Pass? && settings.maxDictionarySize != 0 ==>
      && (keysStream == null ==> o == Fail(EmptyKeysStream))
      && (keysStream != null ==>
            o == Pass && keysStream.tokens == old(keysStream.tokens) + DictionaryTokens(state.globalDictionary.keys))
  {
    o := CheckVersion(state.keyVersion);
    if o.Fail? {
      return;
    }
    if settings.maxDictionarySize != 0 {
      if keysStream == null {
        return Fail(EmptyKeysStream);
      }
      var numKeys := |state.globalDictionary.keys|;
      keysStream.Write([Word(numKeys as uint64)] + KeyTokens(state.globalDictionary.keys));
    }
  }

  /** serializeBinaryBulkWithMultipleStreams: encodes `limit` rows of the column from `offset`
      (0 meaning all the rest) as one chunk. Nothing happens when neither substream is there,
      and it is an error when only one is. */
  method SerializeBinaryBulkWithMultipleStreams(dictionaryType: DataType, column: ColumnWithDictionary,
                                                offset: nat, limit: nat, settings: Settings,
                                                state: SerializeStateWithDictionary,
                                                keysStream: WriteBuffer?, indexesStream: WriteBuffer?)
    returns (o: Outcome)
    requires keysStream != indexesStream || keysStream == null
    requires Fits(state.globalDictionary.keys, column.values, settings)
    modifies state, state.globalDictionary, keysStream, indexesStream
    ensures keysStream == null || indexesStream == null ==>
      && unchanged(state, old(state.globalDictionary))
      && (keysStream == null && indexesStream == null ==> o == Pass)
      && (keysStream == null && indexesStream != null ==> o == Fail(EmptyKeysStream) && unchanged(indexesStream))
      && (keysStream != null && indexesStream == null ==> o == Fail(EmptyIndexesStream) && unchanged(keysStream))
    ensures keysStream != null && indexesStream != null && CheckVersion(state.keyVersion).Fail? ==>
      o == CheckVersion(state.keyVersion) && unchanged(state, old(state.globalDictionary), keysStream, indexesStream)
    ensures keysStream != null && indexesStream != null && CheckVersion(state.keyVersion).Pass? && offset > |column.values| ==>
      o == Fail(ParametersOutOfBound) && unchanged(state, old(state.globalDictionary), keysStream, indexesStream)
    ensures keysStream != null && indexesStream != null && CheckVersion(state.keyVersion).Pass? && offset <= |column.values| ==>
      var e := EncodeChunk(old(state.globalDictionary.keys), old(column.values[offset..offset + RowCount(|column.values|, offset, limit)]), settings);
      && keysStream.tokens == old(keysStream.tokens) + e.dictionaryWrite
      && (e.dictionaryWrite != [] && CreateColumnUniqueImpl(dictionaryType).Failure? ==>
            && o == Fail(CreateColumnUniqueImpl(dictionaryType).error)
            && indexesStream.tokens == old(indexesStream.tokens) + [ChunkTokens(e.chunk)[0]]
            && state.globalDictionary == old(state.globalDictionary))
      && (e.dictionaryWrite == [] || CreateColumnUniqueImpl(dictionaryType).Success? ==>
            && o == Pass
            && indexesStream.tokens == old(indexesStream.tokens) + ChunkTokens(e.chunk)
            && state.globalDictionary.keys == e.global
            && (e.dictionaryWrite == [] ==> state.globalDictionary == old(state.globalDictionary))
            && (e.dictionaryWrite != [] ==> fresh(state.globalDictionary)))
  {
    if keysStream == null && indexesStream == null {
      return Pass;
    }
    if keysStream == null {
      return Fail(EmptyKeysStream);
    }
    if indexesStream == null {
      return Fail(EmptyIndexesStream);
    }
    o := CheckVersion(state.keyVersion);
    if o.Fail? {
      return;
    }
    if offset > |column.values| {
      return Fail(ParametersOutOfBound);
    }
    var maxLimit := |column.values| - offset;
    var n := if limit == 0 then maxLimit else Min(limit, maxLimit);
    var rows := column.values[offset..offset + n];
    assert rows == column.values[offset..offset + RowCount(|column.values|, offset, limit)];
    o := SerializeRows(dictionaryType, rows, settings, state, keysStream, indexesStream);
  }

  /** The chunk step on the rows of one call. */
  method SerializeRows(dictionaryType: DataType, rows: seq<Key>, settings: Settings,
                       state: SerializeStateWithDictionary, keysStream: WriteBuffer, indexesStream: WriteBuffer)
    returns (o: Outcome)
    requires keysStream != indexesStream
    requires Fits(state.globalDictionary.keys, rows, settings)
    modifies state, state.globalDictionary, keysStream, indexesStream
    ensures var e := EncodeChunk(old(state.globalDictionary.keys), rows, settings);
      && keysStream.tokens == old(keysStream.tokens) + e.dictionaryWrite
      && (e.dictionaryWrite != [] && CreateColumnUniqueImpl(dictionaryType).Failure? ==>
            && o == Fail(CreateColumnUniqueImpl(dictionaryType).error)
            && indexesStream.tokens == old(indexesStream.tokens) + [ChunkTokens(e.chunk)[0]]
            && state.globalDictionary == old(state.globalDictionary))
      && (e.dictionaryWrite == [] || CreateColumnUniqueImpl(dictionaryType).Success? ==>
            && o == Pass
            && indexesStream.tokens == old(indexesStream.tokens) + ChunkTokens(e.chunk)
            && state.globalDictionary.keys == e.global
            && (e.dictionaryWrite == [] ==> state.globalDictionary == old(state.globalDictionary))
            && (e.dictionaryWrite != [] ==> fresh(state.globalDictionary)))
  {
    ghost var e := EncodeChunk(state.globalDictionary.keys, rows, settings);
    EncodeChunkShape(state.globalDictionary.keys, rows, settings);
    var positions, keys := CompactInto(state.globalDictionary, rows, settings.maxDictionarySize);
    o := WriteChunk(dictionaryType, settings, state, positions, keys, keysStream, indexesStream, e);
  }

  /** The rows cut and compacted, then (with a capacity set) their keys put into the global
      dictionary and the positions re-indexed through it. */
  method CompactInto(globalDictionary: ColumnUnique, rows: seq<Key>, maxDictionarySize: nat)
    returns (positions: seq<nat>, keys: seq<Key>)
    modifies globalDictionary
    ensures var x := IndexChunk(old(globalDictionary.keys), rows, maxDictionarySize);
      positions == x.positions && keys == x.additionalKeys && globalDictionary.keys == x.dictionary
  {
    var compacted := CutAndCompact(rows);
    positions, keys := compacted.0, compacted.1;
    if maxDictionarySize != 0 {
      var indexes, overflowedKeys := globalDictionary.UniqueInsertRangeWithOverflow(keys, maxDictionarySize);
      positions := Gather(indexes, positions);
      keys := overflowedKeys;
    }
  }

  /** The writes of one chunk, `e`: the header to the indexes substream; the full global
      dictionary to the keys substream and a new empty one in its place, when replacement is
      due; then the additional keys, if any, and the positions. */
  method WriteChunk(dictionaryType: DataType, settings: Settings, state: SerializeStateWithDictionary,
                    positions: seq<nat>, keys: seq<Key>, keysStream: WriteBuffer, indexesStream: WriteBuffer,
                    ghost e: Encoded)
    returns (o: Outcome)
    requires keysStream != indexesStream
    requires |positions| < U64Limit && |keys| < U64Limit && |state.globalDictionary.keys| < U64Limit
    requires e.chunk == Chunk(Header(FitIndexType(MaxIndex(positions)), keys != [], settings.maxDictionarySize != 0), keys, positions)
    requires var replace := settings.useNewDictionaryOnOverflow && |state.globalDictionary.keys| >= settings.maxDictionarySize;
      && (replace ==> e.dictionaryWrite == DictionaryTokens(state.globalDictionary.keys) && e.global == [])
      && (!replace ==> e.dictionaryWrite == [] && e.global == state.globalDictionary.keys)
    modifies state, keysStream, indexesStream
    ensures keysStream.tokens == old(keysStream.tokens) + e.dictionaryWrite
    ensures e.dictionaryWrite != [] && CreateColumnUniqueImpl(dictionaryType).Failure? ==>
      && o == Fail(CreateColumnUniqueImpl(dictionaryType).error)
      && indexesStream.tokens == old(indexesStream.tokens) + [ChunkTokens(e.chunk)[0]]
      && unchanged(state)
      && e.dictionaryWrite == DictionaryTokens(state.globalDictionary.keys)
    ensures e.dictionaryWrite == [] || CreateColumnUniqueImpl(dictionaryType).Success? ==>
      && o == Pass
      && indexesStream.tokens == old(indexesStream.tokens) + ChunkTokens(e.chunk)
      && state.globalDictionary.keys == e.global
      && (e.dictionaryWrite == [] ==> state.globalDictionary == old(state.globalDictionary))
      && (e.dictionaryWrite != [] ==> fresh(state.globalDictionary))
  {
    var needAdditionalKeys := keys != [];
    var needDictionary := settings.maxDictionarySize != 0;
    var needWriteDictionary := settings.useNewDictionaryOnOverflow
                               && |state.globalDictionary.keys| >= settings.maxDictionarySize;
    var header := Header(FitIndexType(MaxIndex(positions)), needAdditionalKeys, needDictionary);
    ghost var start := indexesStream.tokens;
    AppendChunkTokens(start, e.chunk);
    indexesStream.Write([Word(HeaderWord(header))]);
    if needWriteDictionary {
      o := ReplaceDictionary(dictionaryType, state, keysStream);
      if o.Fail? {
        return;
      }
    }
    WriteIndexes(keys, positions, indexesStream);
    return Pass;
  }

  /** A full global dictionary written to the keys substream, and an empty one put in its place. */
  method ReplaceDictionary(dictionaryType: DataType, state: SerializeStateWithDictionary, keysStream: WriteBuffer)
    returns (o: Outcome)
    requires |state.globalDictionary.keys| < U64Limit
    modifies state, keysStream
    ensures keysStream.tokens == old(keysStream.tokens) + DictionaryTokens(old(state.globalDictionary.keys))
    ensures CreateColumnUniqueImpl(dictionaryType).Failure? ==>
      o == Fail(CreateColumnUniqueImpl(dictionaryType).error) && unchanged(state)
    ensures CreateColumnUniqueImpl(dictionaryType).Success? ==>
      o == Pass && fresh(state.globalDictionary) && state.globalDictionary.keys == []
  {
    var numKeys := |state.globalDictionary.keys|;
    keysStream.Write([Word(numKeys as uint64)] + KeyTokens(state.globalDictionary.keys));
    var created := CreateColumnUnique(dictionaryType);
    if created.Failure? {
      return Fail(created.error);
    }
    state.globalDictionary := created.value;
    return Pass;
  }

  /** The rest of a chunk after its header: the additional keys with their count, if there are
      any, then the row count and the positions. */
  method WriteIndexes(keys: seq<Key>, positions: seq<nat>, indexesStream: WriteBuffer)
    requires |keys| < U64Limit && |positions| < U64Limit
    modifies indexesStream
    ensures indexesStream.tokens == old(indexesStream.tokens)
      + (if keys != [] then [Word(|keys| as uint64)] + KeyTokens(keys) else [])
      + [Word(|positions| as uint64)] + IndexTokens(positions)
  {
    if keys != [] {
      indexesStream.Write([Word(|keys| as uint64)] + KeyTokens(keys));
    }
    indexesStream.Write([Word(|positions| as uint64)]);
    indexesStream.Write(IndexTokens(positions));
  }
}
