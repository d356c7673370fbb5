# Dictionary-encoded column codec

This project models the bulk serialization of ClickHouse's dictionary-encoded
("WithDictionary", later "LowCardinality") data type, and proves properties of the model.

A dictionary-encoded column is written to two substreams:

- The **keys** substream starts with a version word. After that it holds every global
  dictionary that was written out: first its size, then its keys.
- The **indexes** substream is a sequence of chunks, one per serializer call. Each chunk is:
  - a header word: the index width tag plus two flags, "needs the global dictionary" and
    "has additional keys";
  - optionally, the additional keys with their count;
  - the row count;
  - one index per row.

The model covers the following parts of the codec:

- **Version gate** (`KeysSerializationVersion`): the only accepted version is 1.
- **Header codec** (`IndexesSerializationType`):
  - a 64-bit header word round trips;
  - decoding rejects a word exactly when its width tag, once both flags are masked off, exceeds 3;
  - the index width is picked from the index column, and back again.
- **Key-type check and dictionary-column dispatch** (`KeyTypes`): which key types a
  dictionary-encoded type accepts, and which column of unique keys each key type gets.
- **Overflow remapper** (`OverflowRemap`): `mapIndexWithOverflow`, as an imperative method
  over an array, proved against two specification functions.
- **Encoder** (`Serialization` holds the functions, `Serializer` the classes and methods): the
  prefix, the per-call chunk and the suffix. This covers:
  - clamping the row range;
  - compacting the rows and inserting their keys into the global dictionary, with overflow;
  - the header flags;
  - writing out a full dictionary and replacing it;
  - the order in which tokens are written.
- **Decoder** (`Deserialization` holds the functions, `Deserializer` the classes and methods):
  - the prefix;
  - the session state machine over chunks, with its row budget;
  - the three ways `readIndexes` resolves the rows of a chunk.
- **Round trip** (`EncodeDecode`):
  - Without dictionary replacement, a decoder fed what a run of encoder calls and the suffix
    wrote appends those calls' rows, in order. It stops once its budget is used up, and it can
    be resumed for the rest.
  - With replacement, the round trip fails, and a two-row counterexample shows it.

The collaborators the codec calls are modelled by deterministic stand-ins with stated
contracts, in `Columns` and `Streams`. These are:

- the column of unique keys;
- the column being decoded into;
- the `cutAndCompact` of the column being encoded;
- the read and write buffers.

Substreams are modelled as sequences of tokens (a 64-bit word, a key, or an index). This
leaves the byte encoding of keys to the key type.

## Model

| member | source | states |
|---|---|---|
| KeysSerializationVersion.CheckVersion | dbms/src/DataTypes/DataTypeWithDictionary.cpp:85-89 | passes exactly for version 1; otherwise fails with the invalid-version error |
| IndexesSerializationType.ResetFlags | dbms/src/DataTypes/DataTypeWithDictionary.cpp:112-115 | the result has both flag bits clear, and OR-ing the word's flag bits back in gives the word |
| IndexesSerializationType.CheckType | dbms/src/DataTypes/DataTypeWithDictionary.cpp:117-124 | passes exactly when the word without its flags is the code of one of the four widths; otherwise fails with the invalid-index-type error |
| IndexesSerializationType.TypeOfCode | dbms/src/DataTypes/DataTypeWithDictionary.cpp:143 | the width a tag of at most 3 stands for has that tag as its code |
| IndexesSerializationType.Serialize | dbms/src/DataTypes/DataTypeWithDictionary.cpp:126-134 | defines the header word: the width code, with bit 9 set for additional keys and bit 8 set for the global dictionary (its properties are the contracts of SerializeFields and RoundTrip) |
| IndexesSerializationType.SerializeFields | dbms/src/DataTypes/DataTypeWithDictionary.cpp:126-134 | the written word carries the width code in its low bits, bit 9 exactly when there are additional keys, and bit 8 exactly when the global dictionary is needed |
| IndexesSerializationType.Deserialize | dbms/src/DataTypes/DataTypeWithDictionary.cpp:136-144 | succeeds exactly when the type check passes; a header it reads serializes back to the same word |
| IndexesSerializationType.SerializeCanonical | dbms/src/DataTypes/DataTypeWithDictionary.cpp:136-144 | every word that passes the check is the serialization of the header its fields describe |
| IndexesSerializationType.RoundTrip | dbms/src/DataTypes/DataTypeWithDictionary.cpp:126-144 | deserializing a serialized header gives back that header |
| IndexesSerializationType.RejectsExactly | dbms/src/DataTypes/DataTypeWithDictionary.cpp:117-144 | decoding fails if and only if the word without its flags exceeds 3 |
| IndexesSerializationType.FromIndexesColumn | dbms/src/DataTypes/DataTypeWithDictionary.cpp:146-160 | succeeds exactly for the four unsigned index columns; any other column is refused with the invalid-indexes-column error |
| IndexesSerializationType.NewHeader | dbms/src/DataTypes/DataTypeWithDictionary.cpp:146-160 | the header takes its width from the index column and the two flags as given; it fails exactly when the column is refused |
| IndexesSerializationType.GetDataType | dbms/src/DataTypes/DataTypeWithDictionary.cpp:162-174 | the index column type of a width is one the header constructor maps back to that width |
| IndexesSerializationType.GetDataTypeInverse | dbms/src/DataTypes/DataTypeWithDictionary.cpp:146-174 | a column type maps to a width if and only if that width's column type is that column type |
| IndexesSerializationType.FitIndexType | dbms/src/DataTypes/DataTypeWithDictionary.cpp:411 | the chosen width holds the largest index, and it is the narrowest such width |
| KeyTypes.NewDataTypeWithDictionary | dbms/src/DataTypes/DataTypeWithDictionary.cpp:37-49 | accepts exactly strings, fixed strings, dates, date-times and numbers, each possibly nullable; otherwise fails with the illegal-type error |
| KeyTypes.CreateColumnUniqueImpl | dbms/src/DataTypes/DataTypeWithDictionary.cpp:602-631 | strips Nullable once and picks the column kind the key type stores its values in; an unknown numeric type and any other type fail with their two distinct errors |
| KeyTypes.DispatchServesConstructedTypes | dbms/src/DataTypes/DataTypeWithDictionary.cpp:602-631 | every type the dispatch serves can be wrapped; the only wrappable types it refuses are unknown numeric types |
| KeyTypes.DispatchIgnoresNullable | dbms/src/DataTypes/DataTypeWithDictionary.cpp:606-608 | Nullable(t) dispatches like t; a doubly nullable type is refused |
| OverflowRemap.Compacted | dbms/src/DataTypes/DataTypeWithDictionary.cpp:312-318 | the values below the bound that occur in the index, each once |
| OverflowRemap.Remapped | dbms/src/DataTypes/DataTypeWithDictionary.cpp:327-329 | the rewritten index keeps its length |
| OverflowRemap.MapIndexWithOverflow | dbms/src/DataTypes/DataTypeWithDictionary.cpp:309-332 | returns a fresh array holding the compacted values and rewrites the index array in place to the remapped index |
| OverflowRemap.BuildRanks | dbms/src/DataTypes/DataTypeWithDictionary.cpp:312-318 | the hash map sends each value below the bound to its rank in order of first occurrence |
| OverflowRemap.RanksToColumn | dbms/src/DataTypes/DataTypeWithDictionary.cpp:320-325 | the index-map column holds each ranked value at its rank |
| OverflowRemap.RewriteIndexes | dbms/src/DataTypes/DataTypeWithDictionary.cpp:327-329 | the in-place loop leaves the array equal to the remapped index |
| OverflowRemap.RemappedAt | dbms/src/DataTypes/DataTypeWithDictionary.cpp:327-329 | a value below the bound becomes its rank; any other value v becomes v - bound + N |
| OverflowRemap.CompactedSize | dbms/src/DataTypes/DataTypeWithDictionary.cpp:334-342 | the map has at most as many entries as the bound |
| OverflowRemap.CompactedCount | dbms/src/DataTypes/DataTypeWithDictionary.cpp:335 | N, the map size, is the number of distinct values below the bound |
| OverflowRemap.CompactedInFirstOccurrenceOrder | dbms/src/DataTypes/DataTypeWithDictionary.cpp:314-318 | a value of lower rank occurs in the index before any occurrence of a value of higher rank |
| OverflowRemap.RemapContract | dbms/src/DataTypes/DataTypeWithDictionary.cpp:334-342 | map[new[i]] == old[i] when old[i] < bound, and otherwise new[i] == old[i] - bound + N |
| OverflowRemap.RemapKeepsWidth | dbms/src/DataTypes/DataTypeWithDictionary.cpp:327-329 | remapping never makes an index exceed a bound that held before, so it stays in the column's width |
| OverflowRemap.CaseCResolution | dbms/src/DataTypes/DataTypeWithDictionary.cpp:508-517 | indexing the gathered global keys, followed by the additional keys, with the remapped index gives the same key as the global dictionary followed by the additional keys with the original index |
| Streams.WordAt | dbms/src/DataTypes/DataTypeWithDictionary.cpp:463-464 | a word read succeeds exactly when a word is next, and it advances past it |
| Streams.KeysAt | dbms/src/DataTypes/DataTypeWithDictionary.cpp:466-468 | reading n keys succeeds exactly when n keys are next, and returns them |
| Streams.IndexesAt | dbms/src/DataTypes/DataTypeWithDictionary.cpp:485-487 | reading n indexes of a width succeeds exactly when n indexes that fit the width are next, and returns them |
| Streams.ReadBuffer.ReadIntBinary | dbms/src/DataTypes/DataTypeWithDictionary.cpp:463-464 | the buffer advances as the word read prescribes, and the result is that read's result; on a failed read the position stays where it was |
| Streams.ReadBuffer.ReadKeys | dbms/src/DataTypes/DataTypeWithDictionary.cpp:466-468 | the buffer advances as the keys read prescribes, and the result is that read's result; on a failed read the position stays where it was |
| Streams.ReadBuffer.ReadIndexes | dbms/src/DataTypes/DataTypeWithDictionary.cpp:485-487 | the buffer advances as the index read prescribes, and the result is that read's result; on a failed read the position stays where it was |
| Streams.WriteBuffer.Write | dbms/src/DataTypes/DataTypeWithDictionary.cpp:248 | appends the tokens to what was written |
| Columns.Dedup | dbms/src/DataTypes/DataTypeWithDictionary.cpp:390-392 | the distinct keys of the rows, no more of them than rows |
| Columns.CutAndCompact | dbms/src/DataTypes/DataTypeWithDictionary.cpp:390-392 | distinct keys, all drawn from the rows, and positions that select each row's key |
| Columns.InsertRangeWithOverflow | dbms/src/DataTypes/DataTypeWithDictionary.cpp:397-400 | the dictionary only grows, only up to the capacity, and by no more keys than are inserted; keys overflow only once it is full; overflowed keys are distinct and absent from it; every key resolves through its index |
| Columns.InsertKey | dbms/src/DataTypes/DataTypeWithDictionary.cpp:397-398 | one key goes into the dictionary, into the overflow, or is found; earlier resolutions stay valid |
| Columns.ColumnUnique.UniqueInsertRangeWithOverflow | dbms/src/DataTypes/DataTypeWithDictionary.cpp:397-398 | the dictionary's keys become the grown dictionary, and the method returns the indexes and the overflowed keys |
| Columns.CreateColumnUnique | dbms/src/DataTypes/DataTypeWithDictionary.cpp:634-642 | fails with the dispatch's error, or returns a fresh empty column of unique keys of the dispatched kind |
| Columns.CreateColumnUniqueWithKeys | dbms/src/DataTypes/DataTypeWithDictionary.cpp:644-652 | fails with the dispatch's error, or returns a fresh column holding the keys, nullable as the key type is |
| Columns.ColumnWithDictionary.SetSharedDictionary | dbms/src/DataTypes/DataTypeWithDictionary.cpp:498-499 | sharing an absent dictionary is the null-dictionary error; otherwise the empty column shares it |
| Columns.ColumnWithDictionary.InsertRangeFrom | dbms/src/DataTypes/DataTypeWithDictionary.cpp:501-502 | appends the dictionary's keys at the positions; an absent dictionary or an out-of-range position is an error that changes nothing |
| Columns.ColumnWithDictionary.InsertRangeFromDictionaryEncodedColumn | dbms/src/DataTypes/DataTypeWithDictionary.cpp:506 | appends the given keys at the positions and makes the dictionary private; absent keys or an out-of-range position is an error that changes nothing |
| ChunkFormat.HeaderWord | dbms/src/DataTypes/DataTypeWithDictionary.cpp:411-412 | defines the header word the encoder writes, as a number: the width code plus 2^8 and 2^9 for the two flags (HeaderWordBits ties it to Serialize) |
| ChunkFormat.HeaderWordBits | dbms/src/DataTypes/DataTypeWithDictionary.cpp:126-134 | the header word as a number equals the word built bit by bit |
| ChunkFormat.ChunkTokens | dbms/src/DataTypes/DataTypeWithDictionary.cpp:411-432 | defines the order of a chunk's tokens: the header word; the count and the additional keys when the header announces them; the row count; one index per row (EncodeDecode.HeaderReads and EncodeDecode.ReadRowsStep read it back) |
| Deserialization.ReadDictionary | dbms/src/DataTypes/DataTypeWithDictionary.cpp:461-472 | on success, installs a global dictionary (needing a key type the dispatch serves), makes the column's dictionary private, and changes nothing else |
| Deserialization.ReadAdditionalKeys | dbms/src/DataTypes/DataTypeWithDictionary.cpp:474-481 | on success, installs additional keys, advances the indexes substream, and changes nothing else |
| Deserialization.ReadHeaderWord | dbms/src/DataTypes/DataTypeWithDictionary.cpp:527 | on success, replaces the header and advances one word |
| Deserialization.LoadGlobalDictionary | dbms/src/DataTypes/DataTypeWithDictionary.cpp:529-530 | reads the dictionary only when the header needs one and none is held; afterwards a header that needs it has it |
| Deserialization.LoadAdditionalKeys | dbms/src/DataTypes/DataTypeWithDictionary.cpp:532-535 | the session holds additional keys exactly when the header announces them |
| Deserialization.ReadRowCount | dbms/src/DataTypes/DataTypeWithDictionary.cpp:537 | on success, sets the pending row count and advances one word |
| Deserialization.ReadChunkHeader | dbms/src/DataTypes/DataTypeWithDictionary.cpp:527-537 | on success, advances the indexes substream, keeps the rows, keeps an already read global dictionary, and leaves a consistent session |
| Deserialization.ReadIndexesRows | dbms/src/DataTypes/DataTypeWithDictionary.cpp:483-518 | on success, appends exactly n rows after the old ones and advances n indexes |
| Deserialization.ReadIndexesSelectsChunkKeys | dbms/src/DataTypes/DataTypeWithDictionary.cpp:496-517 | all three cases append the chunk's keys (the global dictionary plus the additional keys, or the additional keys alone) at the read indexes; they fail exactly on a bad read or an index past those keys |
| Deserialization.Advance | dbms/src/DataTypes/DataTypeWithDictionary.cpp:522-543 | one turn reads at most the budget, keeps the old rows, moves forward, and continues a pending chunk with the same header and keys |
| Deserialization.BeginChunk | dbms/src/DataTypes/DataTypeWithDictionary.cpp:522-538 | with no pending rows it reads a header and moves forward; otherwise it changes nothing |
| Deserialization.DecodeLoop | dbms/src/DataTypes/DataTypeWithDictionary.cpp:520-544 | defines the `while (limit)` loop: with budget left, one more turn (its properties are the contracts of DecodeBudget, TurnCases and EncodeDecode.DecodeResumes) |
| Deserialization.Turn | dbms/src/DataTypes/DataTypeWithDictionary.cpp:522-525 | defines one turn: the loop ends at the end of the indexes substream with no rows pending, and otherwise reads (DecodeLoopStops states the first case) |
| Deserialization.Resume | dbms/src/DataTypes/DataTypeWithDictionary.cpp:527-543 | defines a turn that reads, followed by the rest of the loop with the budget lowered by the rows read (ResumeUnfolds and DecodeLoopContinues state it) |
| Deserialization.DecodeBudget | dbms/src/DataTypes/DataTypeWithDictionary.cpp:520-544 | the loop appends at most `limit` rows after the old ones, and appends fewer only at the end of the stream with nothing pending |
| Deserialization.TurnCases | dbms/src/DataTypes/DataTypeWithDictionary.cpp:520-544 | the loop either fails, stops at the end of the stream, or makes one turn and goes on with the reduced budget |
| Deserialization.ResumeUnfolds | dbms/src/DataTypes/DataTypeWithDictionary.cpp:540-543 | after a turn, the loop goes on with the budget reduced by the rows read |
| Deserialization.DecodeLoopStops | dbms/src/DataTypes/DataTypeWithDictionary.cpp:522-525 | with nothing pending at the end of the stream, the loop returns the session unchanged |
| Deserialization.DecodeLoopFails | dbms/src/DataTypes/DataTypeWithDictionary.cpp:520-538 | a failing header read fails the whole call with its error |
| Deserialization.DecodeLoopContinues | dbms/src/DataTypes/DataTypeWithDictionary.cpp:520-544 | a header read and a read of min(limit, pending) rows continue the loop with those rows consumed |
| Deserializer.DeserializeStateWithDictionary.constructor | dbms/src/DataTypes/DataTypeWithDictionary.cpp:191-201 | the state holds the version, no dictionary, no additional keys, and no pending rows |
| Deserializer.DeserializeBinaryBulkStatePrefix | dbms/src/DataTypes/DataTypeWithDictionary.cpp:279-295 | a missing keys substream is an error; otherwise it reads the version word and refuses any version but 1 |
| Deserializer.ReadDictionaryInto | dbms/src/DataTypes/DataTypeWithDictionary.cpp:461-472 | the state and streams change as ReadDictionary prescribes |
| Deserializer.ReadAdditionalKeysInto | dbms/src/DataTypes/DataTypeWithDictionary.cpp:474-481 | the state and streams change as ReadAdditionalKeys prescribes |
| Deserializer.ReadHeaderWordInto | dbms/src/DataTypes/DataTypeWithDictionary.cpp:527 | the state changes as ReadHeaderWord prescribes |
| Deserializer.LoadGlobalDictionaryInto | dbms/src/DataTypes/DataTypeWithDictionary.cpp:529-530 | the state changes as LoadGlobalDictionary prescribes |
| Deserializer.LoadAdditionalKeysInto | dbms/src/DataTypes/DataTypeWithDictionary.cpp:532-535 | the state changes as LoadAdditionalKeys prescribes |
| Deserializer.ReadRowCountInto | dbms/src/DataTypes/DataTypeWithDictionary.cpp:537 | the state changes as ReadRowCount prescribes |
| Deserializer.ReadChunkHeaderInto | dbms/src/DataTypes/DataTypeWithDictionary.cpp:527-537 | the state changes as ReadChunkHeader prescribes |
| Deserializer.ReadIndexes | dbms/src/DataTypes/DataTypeWithDictionary.cpp:483-518 | the column and the indexes stream change as ReadIndexesRows prescribes |
| Deserializer.BeginChunkInto | dbms/src/DataTypes/DataTypeWithDictionary.cpp:522-538 | the state changes as BeginChunk prescribes |
| Deserializer.ReadPendingRows | dbms/src/DataTypes/DataTypeWithDictionary.cpp:540-543 | reads min(budget, pending) rows and lowers the pending count by that many |
| Deserializer.DecodeTurn | dbms/src/DataTypes/DataTypeWithDictionary.cpp:522-543 | one iteration of the loop, whose result equals the loop's on the session before it |
| Deserializer.DecodeRows | dbms/src/DataTypes/DataTypeWithDictionary.cpp:520-544 | the while loop leaves the session DecodeLoop computes, or fails with its error |
| Deserializer.DeserializeBinaryBulkWithMultipleStreams | dbms/src/DataTypes/DataTypeWithDictionary.cpp:435-545 | checks the version first, then the two substreams (both missing is a no-op); a refused call leaves the column, the state and both substreams untouched; with both present, the result is DecodeLoop's |
| Serialization.RowCount | dbms/src/DataTypes/DataTypeWithDictionary.cpp:387-388 | the row count is the rest of the column when the limit is 0, and otherwise the smaller of the limit and the rest |
| Serialization.DictionaryTokens | dbms/src/DataTypes/DataTypeWithDictionary.cpp:416-419 | defines how a dictionary is written to the keys substream: its size as a word, then its keys (EncodeDecode.SuffixDictionary and EncodeDecode.HeaderReads read it back) |
| Serialization.IndexChunk | dbms/src/DataTypes/DataTypeWithDictionary.cpp:390-401 | the positions select every row from the dictionary's keys (global plus additional, or additional alone); the dictionary extends the old one and grows only up to the capacity; additional keys appear only once it is full |
| Serialization.ChunkOf | dbms/src/DataTypes/DataTypeWithDictionary.cpp:406-411 | the header flags reflect a capacity and additional keys, and the declared width holds every index |
| Serialization.EncodeChunk | dbms/src/DataTypes/DataTypeWithDictionary.cpp:390-433 | one chunk per call with an index per row; the dictionary left stays within the old size or the capacity |
| Serialization.EncodeChunkFacts | dbms/src/DataTypes/DataTypeWithDictionary.cpp:406-421 | the flags and width as above; the dictionary is written out and replaced by an empty one if and only if replacement is on and it is full, and is kept otherwise |
| Serialization.EncodeChunkShape | dbms/src/DataTypes/DataTypeWithDictionary.cpp:390-421 | the chunk and the keys written, in terms of the compacted rows |
| Serialization.EncodeChunkDecodes | dbms/src/DataTypes/DataTypeWithDictionary.cpp:390-432 | against any later extension of the dictionary (equal to it once full), the chunk is well formed and stands for exactly the call's rows |
| Serialization.EncodeCalls | dbms/src/DataTypes/DataTypeWithDictionary.cpp:359-433 | a run of calls writes one chunk per call |
| Serialization.EncodeCallsDictionary | dbms/src/DataTypes/DataTypeWithDictionary.cpp:394-421 | without replacement, nothing goes to the keys substream, the global dictionary only grows, and it stays unchanged once full |
| Serialization.EncodeCallsWriteNothing | dbms/src/DataTypes/DataTypeWithDictionary.cpp:406-421 | without replacement, a run of calls writes nothing to the keys substream |
| Serialization.EncodeCallsDecodes | dbms/src/DataTypes/DataTypeWithDictionary.cpp:390-432 | without replacement, against the final global dictionary every chunk is well formed, needs the global dictionary exactly when a capacity is set, and the chunks stand for the calls' rows in order |
| Serializer.SerializeStateWithDictionary.constructor | dbms/src/DataTypes/DataTypeWithDictionary.cpp:179-189 | the state holds the version and the global dictionary |
| Serializer.SerializeBinaryBulkStatePrefix | dbms/src/DataTypes/DataTypeWithDictionary.cpp:233-252 | a missing keys substream is an error; otherwise it writes version 1 and creates an empty global dictionary, or fails with the dispatch's error |
| Serializer.SerializeBinaryBulkStateSuffix | dbms/src/DataTypes/DataTypeWithDictionary.cpp:254-277 | checks the version; with a capacity set, it writes the global dictionary (size, then keys) to the keys substream, or fails when that substream is missing |
| Serializer.SerializeBinaryBulkWithMultipleStreams | dbms/src/DataTypes/DataTypeWithDictionary.cpp:359-433 | both substreams missing is a no-op and one missing is an error, then the version is checked; an offset past the end is refused with the model's own error (see Left out); otherwise the substreams and the global dictionary change as EncodeChunk prescribes for the clamped row range, except that a failed re-creation keeps the full dictionary |
| Serializer.SerializeRows | dbms/src/DataTypes/DataTypeWithDictionary.cpp:387-432 | the substreams and the global dictionary change as EncodeChunk prescribes for the rows, except that a failed re-creation keeps the full dictionary |
| Serializer.CompactInto | dbms/src/DataTypes/DataTypeWithDictionary.cpp:390-401 | returns the positions and additional keys IndexChunk computes, and leaves the global dictionary IndexChunk grows |
| Serializer.WriteChunk | dbms/src/DataTypes/DataTypeWithDictionary.cpp:406-432 | writes the header, then the dictionary when it is replaced, then the additional keys, row count and indexes; a failed re-creation stops after the header and keeps the dictionary that was just written |
| Serializer.ReplaceDictionary | dbms/src/DataTypes/DataTypeWithDictionary.cpp:414-421 | writes the dictionary's size and keys to the keys substream, then installs a fresh empty dictionary, or fails with the dispatch's error and keeps the old one |
| Serializer.WriteIndexes | dbms/src/DataTypes/DataTypeWithDictionary.cpp:423-432 | writes the additional keys with their count when there are any, then the row count and one index per row |
| EncodeDecode.HeaderReads | dbms/src/DataTypes/DataTypeWithDictionary.cpp:527-537 | a written chunk header reads back: header word, dictionary when needed, additional keys, row count |
| EncodeDecode.ChunkHeaderRead | dbms/src/DataTypes/DataTypeWithDictionary.cpp:527-537 | at a chunk boundary, the decoder reads the next chunk's header and is positioned on its indexes, with the chunk's keys selected |
| EncodeDecode.ReadRowsStep | dbms/src/DataTypes/DataTypeWithDictionary.cpp:483-518 | reading n rows of a positioned chunk appends those rows' keys and leaves the rest of the stream in place |
| EncodeDecode.DecodeResumes | dbms/src/DataTypes/DataTypeWithDictionary.cpp:520-544 | from a resumable session, one call appends the next min(limit, remaining) rows, and the session can be resumed for the rest |
| EncodeDecode.StartPositioned | dbms/src/DataTypes/DataTypeWithDictionary.cpp:191-201 | the session after the prefix, before the whole chunk stream, is resumable with all the stream's rows remaining |
| EncodeDecode.SuffixDictionary | dbms/src/DataTypes/DataTypeWithDictionary.cpp:261-276 | when nothing else was written, the suffix's dictionary sits right after the version word |
| EncodeDecode.StartResumable | dbms/src/DataTypes/DataTypeWithDictionary.cpp:233-277 | without replacement, the session after the prefix is resumable over everything the calls wrote, with every call's rows remaining |
| EncodeDecode.EncodeThenDecode | dbms/src/DataTypes/DataTypeWithDictionary.cpp:359-545 | without replacement, decoding what the calls and the suffix wrote appends the calls' rows, in order, up to the budget |
| EncodeDecode.OneKeyCall | dbms/src/DataTypes/DataTypeWithDictionary.cpp:394-421 | under a capacity of one key with replacement, a one-row call writes its key as a whole dictionary, leaves an empty one, and writes a chunk that does not depend on the key |
| EncodeDecode.TwoOneKeyCalls | dbms/src/DataTypes/DataTypeWithDictionary.cpp:359-433 | two such calls write the same chunk twice, and each call's key as a dictionary |
| EncodeDecode.DecodeOneKeyChunks | dbms/src/DataTypes/DataTypeWithDictionary.cpp:520-544 | the decoder given that chunk twice, with [a] as the first dictionary after the version word, appends a twice |
| EncodeDecode.RotationLosesRows | dbms/src/DataTypes/DataTypeWithDictionary.cpp:529-530 | with replacement on, encoding rows [a, b] with a != b and decoding gives [a, a]: the decoder never reads a dictionary written after the first |

## Left out

- I/O is modelled as token sequences. The byte encoding of keys, the fixed-width encoding of
  indexes, and marks are not modelled; a read past the end or a token of the wrong kind is an
  error.
- The substream getter (`settings.getter` over a path) is replaced by two possibly-null buffer
  parameters. `enumerateStreams` and the path push/pop bookkeeping are not modelled.
- `serializeBinary`, `deserializeBinary`, `serializeImpl`, `deserializeImpl`, `createColumn`,
  `equals` and the factory registration are not modelled. They only forward to the wrapped
  key type or to the column.
- The checked casts of the bulk state (`checkAndGetWith...State`) are not modelled. The state
  parameters are typed.
- Nullable keys: the nullable stripping at lines 403-404 does not change the model's key
  values. A key is its serialized value, and nullness lives in the column of unique keys.
- Columns.ColumnUnique.UniqueInsertRangeWithOverflow and Columns.CutAndCompact are
  deterministic stand-ins for the column library. Their contracts state what this codec relies
  on, and their concrete key order is one admissible choice.
- Serializer.SerializeBinaryBulkWithMultipleStreams requires the capacity to be a 64-bit
  value and the global dictionary together with the column to hold fewer than 2^64 keys. The
  capacity is a UInt64 setting, so the first condition only restates its type; any capacity
  the setting accepts, 2^64 - 1 included, is allowed. The second bounds every count the call
  writes (rows, additional keys, dictionary size). In the source these counts are machine
  sizes and cannot exceed that. EncodeDecode.EncodeThenDecode states the same bound for a
  run of calls, over all of their rows together.
- Serializer.SerializeBinaryBulkWithMultipleStreams refuses an offset past the end of the
  column with the model's own ParametersOutOfBound error. The source raises no error there:
  it subtracts the offset from the column size in size_t, which wraps, and hands the range to
  `cutAndCompact`. That column operation is not part of this model, so the refusal stands in
  for what it does with such a range.
- Deserialization.ReadIndexesRows and the Columns.ColumnWithDictionary insertions report an
  index past the chunk's keys as IndexOutOfBound, and a missing global dictionary or missing
  additional keys as NullDictionary. Both errors are the model's own. The source checks
  neither at lines 496-517: there the column library's indexing and a null pointer decide
  what happens, and that library is not part of this model.
- IndexesSerializationType.FitIndexType picks the narrowest width that holds every position.
  In the source the width is the concrete type of the positions column (line 411), which the
  column library chooses; that library is not part of this model. The model's choice is one
  admissible width, and its contract promises only that the width holds every position and
  that no narrower width does.
- Columns.CreateColumnUnique returns an empty column of unique keys. In the source, a new
  column of unique keys already holds the default key, and for a nullable key type the null
  key as well. These keys take the first positions and count towards the capacity. So in the
  source a capacity of 1 is full from the start: every key of a chunk overflows into its
  additional keys and is decoded through the third case of `readIndexes`, and no dictionary
  is ever replaced. The loss that EncodeDecode.RotationLosesRows shows under a capacity of 1
  therefore appears in the source from a capacity of 2 (3 for a nullable key type), where
  one real key fills the dictionary.
- EncodeDecode.EncodeThenDecode is proved only with dictionary replacement off. With
  replacement on, the round trip does not hold: the decoder reads the global dictionary only
  while it holds none, so every dictionary written after the first is never read.
  EncodeDecode.RotationLosesRows exhibits this under a capacity of 1. In the source, whose
  new dictionaries start with a default key, the same loss needs a capacity of 2 (see the
  Columns.CreateColumnUnique line above). No correction exists that keeps the stream
  format, because a chunk carries no flag telling the decoder to read a new dictionary.
- EncodeDecode.EncodeThenDecode requires every call to be non-empty when no capacity is set.
  An empty call then writes a header with neither flag set. Decoding its zero rows would
  dereference an absent key column, which the model treats as the null-dictionary error. In
  the source, a column of unique keys always holds a default key, so such a call never occurs.
