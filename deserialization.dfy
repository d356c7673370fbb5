/** What one call of the decoder does, as functions of the session it resumes: the state
    carried between calls, the reading of a chunk header, the three ways rows are rebuilt,
    and the loop that spends the caller's row budget. */
module Deserialization {
  import opened Errors
  import opened Seqs
  import opened KeyTypes
  import opened Streams
  import opened IndexesSerializationType
  import opened OverflowRemap
  import opened ChunkFormat

  /** A decoding session: the global dictionary once read, the current chunk's header,
      additional keys and unread rows, the output column (its values, and whether it shares
      the global dictionary), and the read positions of the keys and indexes substreams. */
  datatype Session = Session(
    global: Option<seq<Key>>,
    header: Header,
    additionalKeys: Option<seq<Key>>,
    pendingRows: nat,
    values: seq<Key>,
    sharesGlobal: bool,
    keysPos: nat,
    indexesPos: nat)

  /** readDictionary: the global dictionary, from the keys substream. */
  function ReadDictionary(dictionaryType: DataType, keys: seq<Token>, s: Session): (r: Result<Session>)
    ensures r.Success? ==> r == Success(s.(global := r.value.global, sharesGlobal := false, keysPos := r.value.keysPos))
    ensures r.Success? ==> r.value.global.Some? && CreateColumnUniqueImpl(dictionaryType).Success?
  {
    var n :- WordAt(keys, s.keysPos);
    var dictionaryKeys :- KeysAt(keys, n.next, n.value as nat);
    var _ :- CreateColumnUniqueImpl(dictionaryType);
    Success(s.(global := Some(dictionaryKeys.value), sharesGlobal := false, keysPos := dictionaryKeys.next))
  }

  /** readAdditionalKeys: the chunk's own keys, from the indexes substream. */
  function ReadAdditionalKeys(indexes: seq<Token>, s: Session): (r: Result<Session>)
    ensures r.Success? ==> r == Success(s.(additionalKeys := r.value.additionalKeys, indexesPos := r.value.indexesPos))
    ensures r.Success? ==> r.value.additionalKeys.Some? && s.indexesPos < r.value.indexesPos <= |indexes|
  {
    var n :- WordAt(indexes, s.indexesPos);
    var additional :- KeysAt(indexes, n.next, n.value as nat);
    Success(s.(additionalKeys := Some(additional.value), indexesPos := additional.next))
  }

  /** The start of a chunk: its header, the global dictionary if the chunk needs it and none
      is held yet, its additional keys (dropped when the header has none), and its row count. */
  function ReadChunkHeader(dictionaryType: DataType, keys: seq<Token>, indexes: seq<Token>, s: Session): (r: Result<Session>)
    ensures r.Success? ==> s.indexesPos < r.value.indexesPos <= |indexes|
    ensures r.Success? ==> r.value.values == s.values && r.value.sharesGlobal == (s.sharesGlobal && s.global == r.value.global)
    ensures r.Success? ==> Consistent(r.value)
    ensures r.Success? && s.global.Some? ==> r.value.global == s.global && r.value.keysPos == s.keysPos
    ensures r.Success? && s.global.None? && r.value.global.Some? ==> r.value.header.needGlobalDictionary
  {
    var s1 :- ReadHeaderWord(indexes, s);
    var s2 :- LoadGlobalDictionary(dictionaryType, keys, s1);
    var s3 :- LoadAdditionalKeys(indexes, s2);
    ReadRowCount(indexes, s3)
  }

  /** The header word, checked and decoded. */
  function ReadHeaderWord(indexes: seq<Token>, s: Session): (r: Result<Session>)
    ensures r.Success? ==> r == Success(s.(header := r.value.header, indexesPos := s.indexesPos + 1))
    ensures r.Success? ==> s.indexesPos < |indexes|
  {
    var w :- WordAt(indexes, s.indexesPos);
    var header :- HeaderOfWord(w.value);
    Success(s.(header := header, indexesPos := w.next))
  }

  /** The global dictionary is read only when the chunk needs it and none is held yet. */
  function LoadGlobalDictionary(dictionaryType: DataType, keys: seq<Token>, s: Session): (r: Result<Session>)
    ensures r.Success? ==> r.value.header.needGlobalDictionary ==> r.value.global.Some?
    ensures !(s.header.needGlobalDictionary && s.global.None?) ==> r == Success(s)
    ensures r.Success? && s.header.needGlobalDictionary && s.global.None? ==>
              r == Success(s.(global := r.value.global, sharesGlobal := false, keysPos := r.value.keysPos))
  {
    if s.header.needGlobalDictionary && s.global.None? then ReadDictionary(dictionaryType, keys, s) else Success(s)
  }

  /** The additional keys are read when the header announces them and dropped otherwise. */
  function LoadAdditionalKeys(indexes: seq<Token>, s: Session): (r: Result<Session>)
    ensures r.Success? ==> r == Success(s.(additionalKeys := r.value.additionalKeys, indexesPos := r.value.indexesPos))
    ensures r.Success? ==> (r.value.additionalKeys.Some? <==> s.header.hasAdditionalKeys)
    ensures r.Success? ==> r.value.indexesPos == s.indexesPos || s.indexesPos < r.value.indexesPos <= |indexes|
  {
    if s.header.hasAdditionalKeys then ReadAdditionalKeys(indexes, s) else Success(s.(additionalKeys := None))
  }

  /** The number of rows in the chunk, all of them pending. */
  function ReadRowCount(indexes: seq<Token>, s: Session): (r: Result<Session>)
    ensures r.Success? ==> r == Success(s.(pendingRows := r.value.pendingRows, indexesPos := s.indexesPos + 1))
    ensures r.Success? ==> s.indexesPos < |indexes|
  {
    var n :- WordAt(indexes, s.indexesPos);
    Success(s.(pendingRows := n.value as nat, indexesPos := n.next))
  }

  /** What the decoder keeps true of a session once a chunk header is read: additional keys are
      held exactly when the header announces them, and a chunk that needs the global dictionary
      has one. */
  predicate Consistent(s: Session) {
    && (s.additionalKeys.Some? <==> s.header.hasAdditionalKeys)
    && (s.header.needGlobalDictionary ==> s.global.Some?)
  }

  /** readIndexes: reads `n` indexes and appends the rows they stand for, in one of three ways.
      (A) Without additional keys, into an empty column or one sharing the global dictionary:
      the column shares the global dictionary and the indexes select from it.
      (B) Without the global dictionary: the indexes select from the additional keys.
      (C) Otherwise: the indexes are remapped against the global dictionary and select from the
      used part of the global dictionary followed by the additional keys. */
  function ReadIndexesRows(indexes: seq<Token>, s: Session, n: nat): (r: Result<Session>)
    ensures r.Success? ==> r.value == s.(values := r.value.values, sharesGlobal := r.value.sharesGlobal, indexesPos := s.indexesPos + n)
    ensures r.Success? ==> s.indexesPos + n <= |indexes| && |r.value.values| == |s.values| + n
    ensures r.Success? ==> r.value.values[..|s.values|] == s.values
  {
    var x :- IndexesAt(indexes, s.indexesPos, n, Bound(s.header.indexType));
    var rows := x.value;
    var s1 := s.(indexesPos := x.next);
    if !s.header.hasAdditionalKeys && (s.values == [] || s.sharesGlobal) then
      if s.global.None? then Failure(NullDictionary)
      else if !AllBelow(rows, |s.global.value|) then Failure(IndexOutOfBound)
      else Success(s1.(values := s.values + Gather(s.global.value, rows), sharesGlobal := true))
    else if !s.header.needGlobalDictionary then
      if s.additionalKeys.None? then Failure(NullDictionary)
      else if !AllBelow(rows, |s.additionalKeys.value|) then Failure(IndexOutOfBound)
      else Success(s1.(values := s.values + Gather(s.additionalKeys.value, rows), sharesGlobal := false))
    else if s.global.None? then Failure(NullDictionary)
    else
      var global := s.global.value;
      var keys := Gather(global, Compacted(rows, |global|)) + s.additionalKeys.GetOr([]);
      var remapped := Remapped(rows, |global|);
      if !AllBelow(remapped, |keys|) then Failure(IndexOutOfBound)
      else Success(s1.(values := s.values + Gather(keys, remapped), sharesGlobal := false))
  }

  /** The keys the current chunk's indexes refer to. */
  function ChunkDictionary(s: Session): Option<seq<Key>> {
    if s.header.needGlobalDictionary then
      if s.global.None? then None else Some(s.global.value + s.additionalKeys.GetOr([]))
    else s.additionalKeys
  }

  /** What a turn that reads leaves: the session after it and the number of rows it read. */
  datatype Progress = Progress(session: Session, rows: nat)

  /** One turn that reads, under a positive budget: a chunk header if no rows are pending,
      then as many pending rows as the budget allows, which are then no longer pending. */
  function Advance(dictionaryType: DataType, keys: seq<Token>, indexes: seq<Token>, s: Session, limit: nat): (r: Result<Progress>)
    requires limit > 0
    ensures r.Success? ==> TurnAdvances(indexes, s, limit, r.value.session, r.value.rows)
  {
    var s1 :- BeginChunk(dictionaryType, keys, indexes, s);
    var n := Min(limit, s1.pendingRows);
    var s2 :- ReadIndexesRows(indexes, s1, n);
    Success(Progress(s2.(pendingRows := s1.pendingRows - n), n))
  }

  /** A new chunk is started only when no rows of the current one are pending. */
  function BeginChunk(dictionaryType: DataType, keys: seq<Token>, indexes: seq<Token>, s: Session): (r: Result<Session>)
    ensures r.Success? && s.pendingRows == 0 ==> s.indexesPos < r.value.indexesPos <= |indexes|
    ensures r.Success? && s.pendingRows != 0 ==> r.value == s
  {
    if s.pendingRows == 0 then ReadChunkHeader(dictionaryType, keys, indexes, s) else Success(s)
  }

  /** A turn reads `n` rows, no more than the budget and at least one unless it read a chunk
      header; rows are only appended; a chunk header is read only when no rows are pending. */
  predicate TurnAdvances(indexes: seq<Token>, s: Session, limit: nat, s1: Session, n: nat) {
    && n <= limit
    && |s1.values| == |s.values| + n && s1.values[..|s.values|] == s.values
    && s.indexesPos < s1.indexesPos <= |indexes|
    && (n == 0 ==> s.pendingRows == 0)
    && (s.pendingRows > 0 ==>
          && n == Min(limit, s.pendingRows) && s1.pendingRows == s.pendingRows - n
          && s1.header == s.header && s1.additionalKeys == s.additionalKeys && s1.global == s.global
          && s1.keysPos == s.keysPos)
  }

  /** deserializeBinaryBulkWithMultipleStreams once both substreams are present: turns of the
      loop until the budget is spent or the indexes substream ends between chunks. */
  function DecodeLoop(dictionaryType: DataType, keys: seq<Token>, indexes: seq<Token>, s: Session, limit: nat): Result<Session>
    decreases limit, |indexes| - s.indexesPos, 2
  {
    if limit == 0 then Success(s) else Turn(dictionaryType, keys, indexes, s, limit)
  }

  /** A turn under a positive budget: the loop ends at the end of the indexes substream between
      chunks, and otherwise reads. */
  function Turn(dictionaryType: DataType, keys: seq<Token>, indexes: seq<Token>, s: Session, limit: nat): Result<Session>
    requires limit > 0
    decreases limit, |indexes| - s.indexesPos, 1
  {
    if s.pendingRows == 0 && s.indexesPos >= |indexes| then Success(s)
    else Resume(dictionaryType, keys, indexes, s, limit)
  }

  /** A turn that reads, and the rest of the loop after it. */
  function Resume(dictionaryType: DataType, keys: seq<Token>, indexes: seq<Token>, s: Session, limit: nat): Result<Session>
    requires limit > 0
    decreases limit, |indexes| - s.indexesPos, 0
  {
    var p :- Advance(dictionaryType, keys, indexes, s, limit);
    DecodeLoop(dictionaryType, keys, indexes, p.session, limit - p.rows)
  }

  /** The budget: a call appends rows and only appends them, never more than its limit, and
      fewer only when it stopped at the end of the indexes substream with no rows pending. */
  lemma {:induction false} DecodeBudget(dictionaryType: DataType, keys: seq<Token>, indexes: seq<Token>, s: Session, limit: nat)
    decreases limit, |indexes| - s.indexesPos
    ensures var r := DecodeLoop(dictionaryType, keys, indexes, s, limit);
      && (r.Success? ==> |s.values| <= |r.value.values| <= |s.values| + limit)
      && (r.Success? ==> r.value.values[..|s.values|] == s.values)
      && (r.Success? && |r.value.values| < |s.values| + limit ==> r.value.pendingRows == 0 && r.value.indexesPos >= |indexes|)
  {
    if limit > 0 {
      var advanced, s1, n := TurnCases(dictionaryType, keys, indexes, s, limit);
      if advanced {
        DecodeBudget(dictionaryType, keys, indexes, s1, limit - n);
        var r := DecodeLoop(dictionaryType, keys, indexes, s1, limit - n);
        if r.Success? {
          assert r.value.values[..|s.values|] == r.value.values[..|s1.values|][..|s.values|];
        }
      }
    }
  }

  /** The three ways a turn under a positive budget can go: the loop fails, it stops at the end
      of the indexes substream keeping the session, or it goes on after a turn that reads. */
  lemma TurnCases(dictionaryType: DataType, keys: seq<Token>, indexes: seq<Token>, s: Session, limit: nat)
    returns (advanced: bool, s1: Session, n: nat)
    requires limit > 0
    ensures var r := DecodeLoop(dictionaryType, keys, indexes, s, limit);
      && (!advanced ==> r.Failure? || (r == Success(s) && s.pendingRows == 0 && s.indexesPos >= |indexes|))
      && (advanced ==> Advance(dictionaryType, keys, indexes, s, limit) == Success(Progress(s1, n))
                       && r == DecodeLoop(dictionaryType, keys, indexes, s1, limit - n))
  {
    advanced, s1, n := false, s, 0;
    if !(s.pendingRows == 0 && s.indexesPos >= |indexes|) {
      LoopResumes(dictionaryType, keys, indexes, s, limit);
      ResumeUnfolds(dictionaryType, keys, indexes, s, limit);
      var p := Advance(dictionaryType, keys, indexes, s, limit);
      if p.Success? {
        advanced, s1, n := true, p.value.session, p.value.rows;
      }
    }
  }

  /** Short of the end of the indexes substream between chunks, a turn reads. */
  lemma LoopResumes(dictionaryType: DataType, keys: seq<Token>, indexes: seq<Token>, s: Session, limit: nat)
    requires limit > 0 && !(s.pendingRows == 0 && s.indexesPos >= |indexes|)
    ensures DecodeLoop(dictionaryType, keys, indexes, s, limit) == Resume(dictionaryType, keys, indexes, s, limit)
  {
    assert DecodeLoop(dictionaryType, keys, indexes, s, limit) == Turn(dictionaryType, keys, indexes, s, limit);
  }

  /** A turn that reads starts a chunk if none is pending and then reads the rows the budget
      allows. */
  lemma AdvanceReads(dictionaryType: DataType, keys: seq<Token>, indexes: seq<Token>, s: Session, limit: nat,
                     s1: Session, s2: Session)
    requires limit > 0
    requires BeginChunk(dictionaryType, keys, indexes, s) == Success(s1)
    requires ReadIndexesRows(indexes, s1, Min(limit, s1.pendingRows)) == Success(s2)
    ensures var n := Min(limit, s1.pendingRows);
      Advance(dictionaryType, keys, indexes, s, limit) == Success(Progress(s2.(pendingRows := s1.pendingRows - n), n))
  {
  }

  /** A turn that reads either fails, failing the loop, or hands what is left of the budget on. */
  lemma ResumeUnfolds(dictionaryType: DataType, keys: seq<Token>, indexes: seq<Token>, s: Session, limit: nat)
    requires limit > 0
    ensures var p := Advance(dictionaryType, keys, indexes, s, limit);
      && (p.Failure? ==> Resume(dictionaryType, keys, indexes, s, limit) == Failure(p.error))
      && (p.Success? ==> Resume(dictionaryType, keys, indexes, s, limit)
                         == DecodeLoop(dictionaryType, keys, indexes, p.value.session, limit - p.value.rows))
  {
  }

  /** The three cases of readIndexes agree on a single meaning: in a consistent session whose
      chunk refers to some keys, reading succeeds exactly when every index selects one of the
      chunk's keys, and appends the keys the indexes select. */
  lemma {:induction false} ReadIndexesSelectsChunkKeys(indexes: seq<Token>, s: Session, n: nat)
    requires Consistent(s)
    requires s.header.needGlobalDictionary || s.header.hasAdditionalKeys
    ensures ChunkDictionary(s).Some?
    ensures var x := IndexesAt(indexes, s.indexesPos, n, Bound(s.header.indexType));
            var r := ReadIndexesRows(indexes, s, n);
      && (x.Failure? ==> r == Failure(x.error))
      && (x.Success? ==> (r.Success? <==> AllBelow(x.value.value, |ChunkDictionary(s).value|)))
      && (x.Success? && r.Failure? ==> r.error == IndexOutOfBound)
      && (r.Success? ==> r.value.values == s.values + Gather(ChunkDictionary(s).value, x.value.value))
  {
    var x := IndexesAt(indexes, s.indexesPos, n, Bound(s.header.indexType));
    if x.Success? {
      var rows := x.value.value;
      var d := ChunkDictionary(s).value;
      if !s.header.hasAdditionalKeys && (s.values == [] || s.sharesGlobal) {
        assert d == s.global.value;
      } else if !s.header.needGlobalDictionary {
      } else {
        var global := s.global.value;
        var additional := s.additionalKeys.GetOr([]);
        var keys := Gather(global, Compacted(rows, |global|)) + additional;
        var remapped := Remapped(rows, |global|);
        assert |keys| == |Compacted(rows, |global|)| + |additional|;
        forall i | 0 <= i < |rows|
          ensures remapped[i] < |keys| <==> rows[i] < |d|
        {
          RemapContract(rows, |global|, i);
        }
        if AllBelow(rows, |d|) {
          forall i | 0 <= i < |rows|
            ensures keys[remapped[i]] == d[rows[i]]
          {
            CaseCResolution(global, additional, rows, i);
          }
        }
      }
    }
  }

  /** The loop stops, keeping the session, at the end of the indexes substream between chunks. */
  lemma DecodeLoopStops(dictionaryType: DataType, keys: seq<Token>, indexes: seq<Token>, s: Session, limit: nat)
    requires limit > 0 && s.pendingRows == 0 && s.indexesPos >= |indexes|
    ensures DecodeLoop(dictionaryType, keys, indexes, s, limit) == Success(s)
  {
  }

  /** A failure in either stage of a turn that reads is the loop's failure. */
  lemma DecodeLoopFails(dictionaryType: DataType, keys: seq<Token>, indexes: seq<Token>, s: Session, limit: nat, e: Error)
    requires limit > 0 && !(s.pendingRows == 0 && s.indexesPos >= |indexes|)
    requires var b := BeginChunk(dictionaryType, keys, indexes, s);
      || b == Failure(e)
      || (b.Success? && ReadIndexesRows(indexes, b.value, Min(limit, b.value.pendingRows)) == Failure(e))
    ensures DecodeLoop(dictionaryType, keys, indexes, s, limit) == Failure(e)
  {
    LoopResumes(dictionaryType, keys, indexes, s, limit);
  }

  /** After a turn that reads rows, the loop goes on from the session the turn leaves, which is
      further along the indexes substream. */
  lemma DecodeLoopContinues(dictionaryType: DataType, keys: seq<Token>, indexes: seq<Token>, s: Session, limit: nat,
                            s1: Session, s2: Session)
    requires limit > 0 && !(s.pendingRows == 0 && s.indexesPos >= |indexes|)
    requires BeginChunk(dictionaryType, keys, indexes, s) == Success(s1)
    requires ReadIndexesRows(indexes, s1, Min(limit, s1.pendingRows)) == Success(s2)
    ensures var n := Min(limit, s1.pendingRows);
      && s.indexesPos < s2.indexesPos <= |indexes|
      && DecodeLoop(dictionaryType, keys, indexes, s, limit)
         == DecodeLoop(dictionaryType, keys, indexes, s2.(pendingRows := s1.pendingRows - n), limit - n)
  {
    AdvanceReads(dictionaryType, keys, indexes, s, limit, s1, s2);
    LoopResumes(dictionaryType, keys, indexes, s, limit);
    ResumeUnfolds(dictionaryType, keys, indexes, s, limit);
  }
}
