/** The decoder as the program runs it: a session object updated in place by a loop that reads
    the two substreams and appends rows to the output column. Each method is proved to do
    what the corresponding function of the Deserialization module describes. */
module Deserializer {
  import opened Errors
  import opened Seqs
  import opened KeyTypes
  import opened Streams
  import opened IndexesSerializationType
  import opened KeysSerializationVersion
  import opened OverflowRemap
  import opened Columns
  import opened ChunkFormat
  import opened Deserialization

  /** The state one decoding session carries from call to call. */
  class DeserializeStateWithDictionary {
    const keyVersion: nat
    var globalDictionary: ColumnUnique?
    var indexType: Header
    var additionalKeys: Option<seq<Key>>
    var numPendingRows: nat

    /** The header starts with a placeholder value: it is read before any row is. */
    constructor (keyVersion: nat)
      ensures this.keyVersion == keyVersion && globalDictionary == null
      ensures indexType == Header(TUInt8, false, false) && additionalKeys == None && numPendingRows == 0
    {
      this.keyVersion := keyVersion;
      globalDictionary := null;
      indexType := Header(TUInt8, false, false);
      additionalKeys := None;
      numPendingRows := 0;
    }
  }

  /** The session as the functions of the Deserialization module see it. */
  function SessionOf(state: DeserializeStateWithDictionary, column: ColumnWithDictionary,
                     keysStream: ReadBuffer, indexesStream: ReadBuffer): Session
    reads state, state.globalDictionary, column, keysStream, indexesStream
  {
    Session(
      if state.globalDictionary == null then None else Some(state.globalDictionary.keys),
      state.indexType, state.additionalKeys, state.numPendingRows,
      column.values, column.sharedDictionary != null && column.sharedDictionary == state.globalDictionary,
      keysStream.pos, indexesStream.pos)
  }

  /** deserializeBinaryBulkStatePrefix: reads the keys version and starts a session; a version
      other than 1 is refused at once. */
  method DeserializeBinaryBulkStatePrefix(keysStream: ReadBuffer?) returns (r: Result<DeserializeStateWithDictionary>)
    modifies keysStream
    ensures keysStream == null ==> r == Failure(EmptyKeysStream)
    ensures keysStream != null ==>
      var w := WordAt(keysStream.tokens, old(keysStream.pos));
      && (w.Failure? ==> r == Failure(w.error))
      && (w.Success? && w.value.value != 1 ==> r == Failure(InvalidKeysVersion))
      && (w.Success? && w.value.value == 1 ==>
            && r.Success? && fresh(r.value) && keysStream.pos == w.value.next
            && r.value.keyVersion == 1 && r.value.globalDictionary == null
            && r.value.additionalKeys == None && r.value.numPendingRows == 0)
  {
    if keysStream == null {
      return Failure(EmptyKeysStream);
    }
    var version := keysStream.ReadIntBinary();
    if version.Failure? {
      return Failure(version.error);
    }
    var checked := CheckVersion(version.value as nat);
    if checked.Fail? {
      return Failure(checked.error);
    }
    var state := new DeserializeStateWithDictionary(version.value as nat);
    return Success(state);
  }

  /** The readDictionary step. */
  method ReadDictionaryInto(dictionaryType: DataType, state: DeserializeStateWithDictionary, keysStream: ReadBuffer,
                            ghost column: ColumnWithDictionary, ghost indexesStream: ReadBuffer) returns (o: Outcome)
    requires keysStream != indexesStream
    modifies state, keysStream
    ensures var r := Deserialization.ReadDictionary(dictionaryType, keysStream.tokens, old(SessionOf(state, column, keysStream, indexesStream)));
      && (r.Failure? ==> o == Fail(r.error))
      && (r.Success? ==> o.Pass? && SessionOf(state, column, keysStream, indexesStream) == r.value)
  {
    var n := keysStream.ReadIntBinary();
    if n.Failure? {
      return Fail(n.error);
    }
    var keys := keysStream.ReadKeys(n.value as nat);
    if keys.Failure? {
      return Fail(keys.error);
    }
    var dictionary := CreateColumnUniqueWithKeys(dictionaryType, keys.value);
    if dictionary.Failure? {
      return Fail(dictionary.error);
    }
    state.globalDictionary := dictionary.value;
    return Pass;
  }

  /** The readAdditionalKeys step. */
  method ReadAdditionalKeysInto(state: DeserializeStateWithDictionary, indexesStream: ReadBuffer,
                                ghost column: ColumnWithDictionary, ghost keysStream: ReadBuffer) returns (o: Outcome)
    requires keysStream != indexesStream
    modifies state, indexesStream
    ensures var r := Deserialization.ReadAdditionalKeys(indexesStream.tokens, old(SessionOf(state, column, keysStream, indexesStream)));
      && (r.Failure? ==> o == Fail(r.error))
      && (r.Success? ==> o.Pass? && SessionOf(state, column, keysStream, indexesStream) == r.value)
  {
    var n := indexesStream.ReadIntBinary();
    if n.Failure? {
      return Fail(n.error);
    }
    var keys := indexesStream.ReadKeys(n.value as nat);
    if keys.Failure? {
      return Fail(keys.error);
    }
    state.additionalKeys := Some(keys.value);
    return Pass;
  }

  /** The start of a chunk, read when no rows are pending. */
  method ReadChunkHeaderInto(dictionaryType: DataType, state: DeserializeStateWithDictionary, column: ColumnWithDictionary,
                             keysStream: ReadBuffer, indexesStream: ReadBuffer) returns (o: Outcome)
    requires keysStream != indexesStream
    modifies state, keysStream, indexesStream
    ensures var r := ReadChunkHeader(dictionaryType, keysStream.tokens, indexesStream.tokens,
                                     old(SessionOf(state, column, keysStream, indexesStream)));
      && (r.Failure? ==> o == Fail(r.error))
      && (r.Success? ==> o.Pass? && SessionOf(state, column, keysStream, indexesStream) == r.value)
  {
    o := ReadHeaderWordInto(state, indexesStream, column, keysStream);
    if o.Fail? {
      return;
    }
    o := LoadGlobalDictionaryInto(dictionaryType, state, keysStream, column, indexesStream);
    if o.Fail? {
      return;
    }
    o := LoadAdditionalKeysInto(state, indexesStream, column, keysStream);
    if o.Fail? {
      return;
    }
    o := ReadRowCountInto(state, indexesStream, column, keysStream);
  }

  method ReadHeaderWordInto(state: DeserializeStateWithDictionary, indexesStream: ReadBuffer,
                            ghost column: ColumnWithDictionary, ghost keysStream: ReadBuffer) returns (o: Outcome)
    requires keysStream != indexesStream
    modifies state, indexesStream
    ensures var r := ReadHeaderWord(indexesStream.tokens, old(SessionOf(state, column, keysStream, indexesStream)));
      && (r.Failure? ==> o == Fail(r.error))
      && (r.Success? ==> o.Pass? && SessionOf(state, column, keysStream, indexesStream) == r.value)
  {
    var w := indexesStream.ReadIntBinary();
    if w.Failure? {
      return Fail(w.error);
    }
    var header := HeaderOfWord(w.value);
    if header.Failure? {
      return Fail(header.error);
    }
    state.indexType := header.value;
    return Pass;
  }

  method LoadGlobalDictionaryInto(dictionaryType: DataType, state: DeserializeStateWithDictionary, keysStream: ReadBuffer,
                                  ghost column: ColumnWithDictionary, ghost indexesStream: ReadBuffer) returns (o: Outcome)
    requires keysStream != indexesStream
    modifies state, keysStream
    ensures var r := LoadGlobalDictionary(dictionaryType, keysStream.tokens, old(SessionOf(state, column, keysStream, indexesStream)));
      && (r.Failure? ==> o == Fail(r.error))
      && (r.Success? ==> o.Pass? && SessionOf(state, column, keysStream, indexesStream) == r.value)
  {
    o := Pass;
    if state.indexType.needGlobalDictionary && state.globalDictionary == null {
      o := ReadDictionaryInto(dictionaryType, state, keysStream, column, indexesStream);
    }
  }

  method LoadAdditionalKeysInto(state: DeserializeStateWithDictionary, indexesStream: ReadBuffer,
                                ghost column: ColumnWithDictionary, ghost keysStream: ReadBuffer) returns (o: Outcome)
    requires keysStream != indexesStream
    modifies state, indexesStream
    ensures var r := LoadAdditionalKeys(indexesStream.tokens, old(SessionOf(state, column, keysStream, indexesStream)));
      && (r.Failure? ==> o == Fail(r.error))
      && (r.Success? ==> o.Pass? && SessionOf(state, column, keysStream, indexesStream) == r.value)
  {
    if state.indexType.hasAdditionalKeys {
      o := ReadAdditionalKeysInto(state, indexesStream, column, keysStream);
    } else {
      state.additionalKeys := None;
      o := Pass;
    }
  }

  method ReadRowCountInto(state: DeserializeStateWithDictionary, indexesStream: ReadBuffer,
                          ghost column: ColumnWithDictionary, ghost keysStream: ReadBuffer) returns (o: Outcome)
    requires keysStream != indexesStream
    modifies state, indexesStream
    ensures var r := ReadRowCount(indexesStream.tokens, old(SessionOf(state, column, keysStream, indexesStream)));
      && (r.Failure? ==> o == Fail(r.error))
      && (r.Success? ==> o.Pass? && SessionOf(state, column, keysStream, indexesStream) == r.value)
  {
    var n := indexesStream.ReadIntBinary();
    if n.Failure? {
      return Fail(n.error);
    }
    state.numPendingRows := n.value as nat;
    return Pass;
  }

  /** The readIndexes step: `n` indexes, and the rows they stand for appended to the column. */
  method ReadIndexes(state: DeserializeStateWithDictionary, column: ColumnWithDictionary,
                     indexesStream: ReadBuffer, n: nat, ghost keysStream: ReadBuffer) returns (o: Outcome)
    requires keysStream != indexesStream
    modifies column, indexesStream
    ensures var r := ReadIndexesRows(indexesStream.tokens, old(SessionOf(state, column, keysStream, indexesStream)), n);
      && (r.Failure? ==> o == Fail(r.error))
      && (r.Success? ==> o.Pass? && SessionOf(state, column, keysStream, indexesStream) == r.value)
  {
    var x := indexesStream.ReadIndexes(n, Bound(state.indexType.indexType));
    if x.Failure? {
      return Fail(x.error);
    }
    var rows := x.value;
    var hasAdditionalKeys := state.indexType.hasAdditionalKeys;
    var columnIsEmpty := column.values == [];
    var columnWithGlobalDictionary := column.sharedDictionary != null && column.sharedDictionary == state.globalDictionary;
    if !hasAdditionalKeys && (columnIsEmpty || columnWithGlobalDictionary) {
      if columnIsEmpty {
        o := column.SetSharedDictionary(state.globalDictionary);
        if o.Fail? {
          return;
        }
      }
      o := column.InsertRangeFrom(state.globalDictionary, rows);
    } else if !state.indexType.needGlobalDictionary {
      o := column.InsertRangeFromDictionaryEncodedColumn(state.additionalKeys, rows);
    } else {
      if state.globalDictionary == null {
        return Fail(NullDictionary);
      }
      var global := state.globalDictionary.keys;
      var index := new nat[|rows|](i requires 0 <= i < |rows| => rows[i]);
      assert index[..] == rows;
      var indexMap := MapIndexWithOverflow(index, |global|);
      var keys := Gather(global, indexMap[..]) + state.additionalKeys.GetOr([]);
      o := column.InsertRangeFromDictionaryEncodedColumn(Some(keys), index[..]);
    }
  }

  /** deserializeBinaryBulkWithMultipleStreams: after the version check and the check that
      both substreams are present (neither present is a no-op), the loop of
      Deserialization.DecodeLoop, with the session updated in place. */
  method DeserializeBinaryBulkWithMultipleStreams(
    dictionaryType: DataType, column: ColumnWithDictionary, limit: nat,
    state: DeserializeStateWithDictionary, keysStream: ReadBuffer?, indexesStream: ReadBuffer?)
    returns (o: Outcome)
    requires keysStream == null || keysStream != indexesStream
    modifies column, state, keysStream, indexesStream
    ensures CheckVersion(state.keyVersion).Fail? ==> o == CheckVersion(state.keyVersion)
    ensures CheckVersion(state.keyVersion).Pass? && keysStream == null && indexesStream == null ==> o.Pass?
    ensures CheckVersion(state.keyVersion).Pass? && keysStream == null && indexesStream != null ==> o == Fail(EmptyKeysStream)
    ensures CheckVersion(state.keyVersion).Pass? && keysStream != null && indexesStream == null ==> o == Fail(EmptyIndexesStream)
    ensures CheckVersion(state.keyVersion).Pass? && keysStream != null && indexesStream != null ==>
      var r := DecodeLoop(dictionaryType, keysStream.tokens, indexesStream.tokens,
                          old(SessionOf(state, column, keysStream, indexesStream)), limit);
      && (r.Failure? ==> o == Fail(r.error))
      && (r.Success? ==> o.Pass? && SessionOf(state, column, keysStream, indexesStream) == r.value)
    ensures CheckVersion(state.keyVersion).Fail? || keysStream == null || indexesStream == null ==>
      unchanged(column, state)
    ensures keysStream != null && (CheckVersion(state.keyVersion).Fail? || indexesStream == null) ==>
      unchanged(keysStream)
    ensures indexesStream != null && (CheckVersion(state.keyVersion).Fail? || keysStream == null) ==>
      unchanged(indexesStream)
  {
    o := CheckVersion(state.keyVersion);
    if o.Fail? {
      return;
    }
    if keysStream == null && indexesStream == null {
      return Pass;
    }
    if keysStream == null {
      return Fail(EmptyKeysStream);
    }
    if indexesStream == null {
      return Fail(EmptyIndexesStream);
    }
    o := DecodeRows(dictionaryType, column, limit, state, keysStream, indexesStream);
  }

  /** The `while (limit)` loop. */
  method DecodeRows(dictionaryType: DataType, column: ColumnWithDictionary, limit: nat,
                    state: DeserializeStateWithDictionary, keysStream: ReadBuffer, indexesStream: ReadBuffer)
    returns (o: Outcome)
    requires keysStream != indexesStream
    modifies column, state, keysStream, indexesStream
    ensures var r := DecodeLoop(dictionaryType, keysStream.tokens, indexesStream.tokens,
                                old(SessionOf(state, column, keysStream, indexesStream)), limit);
      && (r.Failure? ==> o == Fail(r.error))
      && (r.Success? ==> o.Pass? && SessionOf(state, column, keysStream, indexesStream) == r.value)
  {
    ghost var keys := keysStream.tokens;
    ghost var indexes := indexesStream.tokens;
    ghost var goal := DecodeLoop(dictionaryType, keys, indexes, SessionOf(state, column, keysStream, indexesStream), limit);
    var rest := limit;
    while rest > 0
      invariant DecodeLoop(dictionaryType, keys, indexes, SessionOf(state, column, keysStream, indexesStream), rest) == goal
      decreases rest, |indexes| - indexesStream.pos
    {
      var stop, n;
      o, stop, n := DecodeTurn(dictionaryType, column, rest, state, keysStream, indexesStream);
      if o.Fail? || stop {
        return;
      }
      rest := rest - n;
    }
    return Pass;
  }

  /** One turn of the loop: stop at the end of the indexes substream between chunks, or start
      a chunk if none is pending and read the rows the budget allows; the loop then goes on
      from the new session with what is left of the budget. */
  method DecodeTurn(dictionaryType: DataType, column: ColumnWithDictionary, rest: nat,
                    state: DeserializeStateWithDictionary, keysStream: ReadBuffer, indexesStream: ReadBuffer)
    returns (o: Outcome, stop: bool, n: nat)
    requires keysStream != indexesStream && rest > 0
    modifies column, state, keysStream, indexesStream
    ensures var r := DecodeLoop(dictionaryType, keysStream.tokens, indexesStream.tokens,
                                old(SessionOf(state, column, keysStream, indexesStream)), rest);
      && (o.Fail? ==> r == Failure(o.error))
      && (stop ==> o.Pass? && r == Success(SessionOf(state, column, keysStream, indexesStream)))
      && (o.Pass? && !stop ==>
            && n <= rest && old(indexesStream.pos) <= indexesStream.pos <= |indexesStream.tokens|
            && (n == 0 ==> old(indexesStream.pos) < indexesStream.pos)
            && r == DecodeLoop(dictionaryType, keysStream.tokens, indexesStream.tokens,
                               SessionOf(state, column, keysStream, indexesStream), rest - n))
  {
    ghost var keys := keysStream.tokens;
    ghost var indexes := indexesStream.tokens;
    ghost var s := SessionOf(state, column, keysStream, indexesStream);
    stop, n := false, 0;
    if state.numPendingRows == 0 && indexesStream.Eof() {
      DecodeLoopStops(dictionaryType, keys, indexes, s, rest);
      return Pass, true, 0;
    }
    o := BeginChunkInto(dictionaryType, state, column, keysStream, indexesStream);
    if o.Fail? {
      DecodeLoopFails(dictionaryType, keys, indexes, s, rest, o.error);
      return;
    }
    ghost var started := SessionOf(state, column, keysStream, indexesStream);
    o, n := ReadPendingRows(column, rest, state, keysStream, indexesStream);
    if o.Fail? {
      DecodeLoopFails(dictionaryType, keys, indexes, s, rest, o.error);
      return;
    }
    DecodeLoopContinues(dictionaryType, keys, indexes, s, rest, started, ReadIndexesRows(indexes, started, n).value);
  }

  method BeginChunkInto(dictionaryType: DataType, state: DeserializeStateWithDictionary, column: ColumnWithDictionary,
                        keysStream: ReadBuffer, indexesStream: ReadBuffer) returns (o: Outcome)
    requires keysStream != indexesStream
    modifies state, keysStream, indexesStream
    ensures var r := BeginChunk(dictionaryType, keysStream.tokens, indexesStream.tokens,
                                old(SessionOf(state, column, keysStream, indexesStream)));
      && (r.Failure? ==> o == Fail(r.error))
      && (r.Success? ==> o.Pass? && SessionOf(state, column, keysStream, indexesStream) == r.value)
  {
    o := Pass;
    if state.numPendingRows == 0 {
      o := ReadChunkHeaderInto(dictionaryType, state, column, keysStream, indexesStream);
    }
  }

  /** The rows of the current chunk the budget allows, no longer pending once read. */
  method ReadPendingRows(column: ColumnWithDictionary, rest: nat,
                         state: DeserializeStateWithDictionary, ghost keysStream: ReadBuffer, indexesStream: ReadBuffer)
    returns (o: Outcome, n: nat)
    requires keysStream != indexesStream
    modifies column, state, indexesStream
    ensures var s := old(SessionOf(state, column, keysStream, indexesStream));
            var r := ReadIndexesRows(indexesStream.tokens, s, Min(rest, s.pendingRows));
      && n == Min(rest, s.pendingRows)
      && (r.Failure? ==> o == Fail(r.error))
      && (r.Success? ==> o.Pass? && SessionOf(state, column, keysStream, indexesStream) == r.value.(pendingRows := s.pendingRows - n))
  {
    n := Min(rest, state.numPendingRows);
    o := ReadIndexes(state, column, indexesStream, n, keysStream);
    if o.Fail? {
      return;
    }
    state.numPendingRows := state.numPendingRows - n;
  }
}
