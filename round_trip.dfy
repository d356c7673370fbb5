/** What the decoder makes of what the encoder writes. Chunks that are well formed against a
    global dictionary `final` decode to the rows they stand for, the dictionary being read from
    the keys substream when the first chunk needs it; with dictionary replacement off, the
    encoder writes exactly such chunks, so every row comes back, in order. */
module EncodeDecode {
  import opened Errors
  import opened Seqs
  import opened KeyTypes
  import opened Streams
  import opened IndexesSerializationType
  import opened ChunkFormat
  import opened Deserialization
  import opened Serialization
  import opened Columns

  /** A header word reads back as the header it was written for. */
  lemma HeaderWordReads(h: Header)
    ensures HeaderOfWord(HeaderWord(h)) == Success(h)
  {
    HeaderWordBits(h);
    RoundTrip(h);
  }

  /** `ts` from `pos` on is `p` followed by `x`. */
  lemma SplitAt(ts: seq<Token>, pos: nat, p: seq<Token>, x: seq<Token>)
    requires pos <= |ts| && ts[pos..] == p + x
    ensures pos + |p| <= |ts| && ts[pos..pos + |p|] == p && ts[pos + |p|..] == x
  {
    assert ts[pos..][..|p|] == p;
    assert ts[pos..][|p|..] == x;
  }

  lemma WordRead(ts: seq<Token>, pos: nat, w: uint64, x: seq<Token>)
    requires pos <= |ts| && ts[pos..] == [Word(w)] + x
    ensures WordAt(ts, pos) == Success(Read(w, pos + 1)) && ts[pos + 1..] == x
  {
    SplitAt(ts, pos, [Word(w)], x);
    assert ts[pos] == ts[pos..pos + 1][0];
  }

  lemma KeyTokensInjective(a: seq<Key>, b: seq<Key>)
    requires KeyTokens(a) == KeyTokens(b)
    ensures a == b
  {
    assert |a| == |b|;
    forall i | 0 <= i < |a| ensures a[i] == b[i] {
      assert KeyTokens(a)[i] == KeyTokens(b)[i];
    }
  }

  lemma IndexTokensInjective(a: seq<nat>, b: seq<nat>)
    requires IndexTokens(a) == IndexTokens(b)
    ensures a == b
  {
    assert |a| == |b|;
    forall i | 0 <= i < |a| ensures a[i] == b[i] {
      assert IndexTokens(a)[i] == IndexTokens(b)[i];
    }
  }

  lemma KeysRead(ts: seq<Token>, pos: nat, keys: seq<Key>, x: seq<Token>)
    requires pos <= |ts| && ts[pos..] == KeyTokens(keys) + x
    ensures KeysAt(ts, pos, |keys|) == Success(Read(keys, pos + |keys|)) && ts[pos + |keys|..] == x
  {
    SplitAt(ts, pos, KeyTokens(keys), x);
    forall i | pos <= i < pos + |keys|
      ensures ts[i].KeyToken?
    {
      assert ts[i] == ts[pos..pos + |keys|][i - pos];
    }
    var r := KeysAt(ts, pos, |keys|);
    KeyTokensInjective(r.value.value, keys);
  }

  lemma IndexTokensSplit(xs: seq<nat>, n: nat)
    requires n <= |xs|
    ensures IndexTokens(xs) == IndexTokens(xs[..n]) + IndexTokens(xs[n..])
  {
  }

  /** Reading `n` of the indexes `xs` written at `pos` yields the first `n` of them. */
  lemma IndexesRead(ts: seq<Token>, pos: nat, xs: seq<nat>, n: nat, bound: nat, x: seq<Token>)
    requires pos <= |ts| && ts[pos..] == IndexTokens(xs) + x
    requires n <= |xs| && AllBelow(xs, bound)
    ensures IndexesAt(ts, pos, n, bound) == Success(Read(xs[..n], pos + n))
    ensures ts[pos + n..] == IndexTokens(xs[n..]) + x
  {
    IndexTokensSplit(xs, n);
    assert ts[pos..] == IndexTokens(xs[..n]) + (IndexTokens(xs[n..]) + x);
    SplitAt(ts, pos, IndexTokens(xs[..n]), IndexTokens(xs[n..]) + x);
    forall i | pos <= i < pos + n
      ensures ts[i].IndexToken? && ts[i].index < bound
    {
      assert ts[i] == ts[pos..pos + n][i - pos];
    }
    var r := IndexesAt(ts, pos, n, bound);
    IndexTokensInjective(r.value.value, xs[..n]);
  }

  /** The keys substream holds the dictionary `final` at `pos`. */
  predicate DictionaryAt(keys: seq<Token>, pos: nat, final: seq<Key>) {
    |final| < U64Limit && pos + 1 + |final| <= |keys| && keys[pos..pos + 1 + |final|] == DictionaryTokens(final)
  }

  /** The global dictionary is `final` once read, and until then the keys substream supplies it
      where the session will read it, if a chunk still to come needs it. */
  predicate GlobalReady(dictionaryType: DataType, keys: seq<Token>, s: Session, final: seq<Key>, rest: seq<Chunk>) {
    || s.global == Some(final)
    || (s.global.None? &&
        (NeedsGlobal(rest) ==> DictionaryAt(keys, s.keysPos, final) && CreateColumnUniqueImpl(dictionaryType).Success?))
  }

  /** The session stands before the indexes `cur` still pending in the current chunk, followed
      by the whole chunks `rest`. */
  predicate Positioned(dictionaryType: DataType, keys: seq<Token>, indexes: seq<Token>, s: Session,
                       final: seq<Key>, cur: seq<nat>, rest: seq<Chunk>) {
    && s.pendingRows == |cur|
    && s.indexesPos <= |indexes|
    && AllWellFormed(rest, final)
    && indexes[s.indexesPos..] == IndexTokens(cur) + StreamTokens(rest)
    && GlobalReady(dictionaryType, keys, s, final, rest)
  }

  /** Inside a chunk whose indexes select from `dict`: the pending indexes fit both `dict` and
      the declared width. */
  predicate InChunk(s: Session, cur: seq<nat>, dict: seq<Key>) {
    && Consistent(s)
    && (s.header.needGlobalDictionary || s.header.hasAdditionalKeys)
    && ChunkDictionary(s) == Some(dict)
    && AllBelow(cur, |dict|) && AllBelow(cur, Bound(s.header.indexType))
  }

  /** A session the decoder can go on from: positioned, and inside a chunk while rows of it
      are pending. */
  predicate Resumable(dictionaryType: DataType, keys: seq<Token>, indexes: seq<Token>, s: Session,
                      final: seq<Key>, cur: seq<nat>, dict: seq<Key>, rest: seq<Chunk>) {
    && Positioned(dictionaryType, keys, indexes, s, final, cur, rest)
    && AllBelow(cur, |dict|)
    && (cur != [] ==> InChunk(s, cur, dict))
  }

  /** The rows still to be decoded from a resumable session. */
  function Remaining(final: seq<Key>, cur: seq<nat>, dict: seq<Key>, rest: seq<Chunk>): seq<Key>
    requires AllBelow(cur, |dict|) && AllWellFormed(rest, final)
  {
    Gather(dict, cur) + StreamRows(rest, final)
  }

  /** Chunks are never empty on the wire: a chunk stream has tokens exactly when it has chunks. */
  lemma StreamTokensEmpty(cs: seq<Chunk>)
    requires forall i :: 0 <= i < |cs| ==> Sized(cs[i])
    ensures StreamTokens(cs) == [] <==> cs == []
  {
    if cs != [] {
      assert StreamTokens(cs)[0] == Word(HeaderWord(cs[0].header));
    }
  }

  /** The first chunk of a stream and the stream after it. */
  lemma StreamTokensFirst(cs: seq<Chunk>)
    requires cs != [] && forall i :: 0 <= i < |cs| ==> Sized(cs[i])
    ensures StreamTokens(cs) == ChunkTokens(cs[0]) + StreamTokens(cs[1..])
  {
  }

  lemma AllWellFormedRest(cs: seq<Chunk>, final: seq<Key>)
    requires cs != [] && AllWellFormed(cs, final)
    ensures WellFormed(cs[0], final) && AllWellFormed(cs[1..], final)
    ensures StreamRows(cs, final) == ChunkRows(cs[0], final) + StreamRows(cs[1..], final)
  {
    assert WellFormed(cs[0], final);
    forall i | 0 <= i < |cs| - 1 ensures WellFormed(cs[1..][i], final) {
      assert cs[1..][i] == cs[i + 1];
    }
  }

  /** The header word of the next chunk. */
  lemma HeaderStage(indexes: seq<Token>, s: Session, c: Chunk, x: seq<Token>)
    requires Sized(c) && s.indexesPos <= |indexes| && indexes[s.indexesPos..] == ChunkTokens(c) + x
    ensures ReadHeaderWord(indexes, s) == Success(s.(header := c.header, indexesPos := s.indexesPos + 1))
    ensures s.indexesPos + 1 <= |indexes|
    ensures indexes[s.indexesPos + 1..]
            == AdditionalKeysTokens(c) + ([Word(|c.indexes| as uint64)] + (IndexTokens(c.indexes) + x))
  {
    ChunkTokensThen(c, x);
    WordRead(indexes, s.indexesPos, HeaderWord(c.header), AdditionalKeysTokens(c) + ([Word(|c.indexes| as uint64)] + (IndexTokens(c.indexes) + x)));
    HeaderWordReads(c.header);
  }

  /** The global dictionary, read from the keys substream when the chunk needs it first. */
  lemma DictionaryStage(dictionaryType: DataType, keys: seq<Token>, s: Session, final: seq<Key>)
    requires s.header.needGlobalDictionary && s.global.None?
    requires DictionaryAt(keys, s.keysPos, final) && CreateColumnUniqueImpl(dictionaryType).Success?
    ensures LoadGlobalDictionary(dictionaryType, keys, s)
            == Success(s.(global := Some(final), sharesGlobal := false, keysPos := s.keysPos + 1 + |final|))
  {
    var tail := keys[s.keysPos + 1 + |final|..];
    assert keys[s.keysPos..] == DictionaryTokens(final) + tail by {
      assert keys[s.keysPos..] == keys[s.keysPos..s.keysPos + 1 + |final|] + tail;
    }
    WordRead(keys, s.keysPos, |final| as uint64, KeyTokens(final) + tail);
    KeysRead(keys, s.keysPos + 1, final, tail);
  }

  /** The global dictionary is loaded when the header asks for it and none is held yet. */
  lemma GlobalStage(dictionaryType: DataType, keys: seq<Token>, s: Session, final: seq<Key>) returns (s1: Session)
    requires s.header.needGlobalDictionary && s.global.None? ==>
               DictionaryAt(keys, s.keysPos, final) && CreateColumnUniqueImpl(dictionaryType).Success?
    ensures s1 == if s.header.needGlobalDictionary && s.global.None?
                  then s.(global := Some(final), sharesGlobal := false, keysPos := s.keysPos + 1 + |final|)
                  else s
    ensures LoadGlobalDictionary(dictionaryType, keys, s) == Success(s1)
    ensures s1.header == s.header && s1.indexesPos == s.indexesPos
  {
    s1 := s;
    if s.header.needGlobalDictionary && s.global.None? {
      DictionaryStage(dictionaryType, keys, s, final);
      s1 := s.(global := Some(final), sharesGlobal := false, keysPos := s.keysPos + 1 + |final|);
    }
  }

  /** The chunk's additional keys, when its header announces them. */
  lemma AdditionalKeysStage(indexes: seq<Token>, s: Session, c: Chunk, x: seq<Token>)
    requires Sized(c) && s.header == c.header && (!c.header.hasAdditionalKeys ==> c.additionalKeys == [])
    requires s.indexesPos <= |indexes| && indexes[s.indexesPos..] == AdditionalKeysTokens(c) + x
    ensures var n := |AdditionalKeysTokens(c)|;
      && s.indexesPos + n <= |indexes| && indexes[s.indexesPos + n..] == x
      && LoadAdditionalKeys(indexes, s)
         == Success(s.(additionalKeys := if c.header.hasAdditionalKeys then Some(c.additionalKeys) else None,
                       indexesPos := s.indexesPos + n))
  {
    if c.header.hasAdditionalKeys {
      WordRead(indexes, s.indexesPos, |c.additionalKeys| as uint64, KeyTokens(c.additionalKeys) + x);
      KeysRead(indexes, s.indexesPos + 1, c.additionalKeys, x);
    }
  }

  /** The session a chunk header leaves, read from where the chunk `c` is written. */
  function AfterHeader(s: Session, c: Chunk, final: seq<Key>): Session
    requires Sized(c)
  {
    var load := c.header.needGlobalDictionary && s.global.None?;
    s.(header := c.header,
       global := if load then Some(final) else s.global,
       sharesGlobal := if load then false else s.sharesGlobal,
       keysPos := if load then s.keysPos + 1 + |final| else s.keysPos,
       additionalKeys := if c.header.hasAdditionalKeys then Some(c.additionalKeys) else None,
       pendingRows := |c.indexes|,
       indexesPos := s.indexesPos + 2 + |AdditionalKeysTokens(c)|)
  }

  /** The chunk's row count, all of its rows then pending. */
  lemma RowCountStage(indexes: seq<Token>, s: Session, n: uint64, x: seq<Token>)
    requires s.indexesPos <= |indexes| && indexes[s.indexesPos..] == [Word(n)] + x
    ensures ReadRowCount(indexes, s) == Success(s.(pendingRows := n as nat, indexesPos := s.indexesPos + 1))
    ensures indexes[s.indexesPos + 1..] == x
  {
    WordRead(indexes, s.indexesPos, n, x);
  }

  lemma HeaderChain(dictionaryType: DataType, keys: seq<Token>, indexes: seq<Token>, s: Session,
                    s1: Session, s2: Session, s3: Session)
    requires ReadHeaderWord(indexes, s) == Success(s1)
    requires LoadGlobalDictionary(dictionaryType, keys, s1) == Success(s2)
    requires LoadAdditionalKeys(indexes, s2) == Success(s3)
    ensures ReadChunkHeader(dictionaryType, keys, indexes, s) == ReadRowCount(indexes, s3)
  {
  }

  /** The header word and the global dictionary. */
  lemma FrontReads(dictionaryType: DataType, keys: seq<Token>, indexes: seq<Token>, s: Session,
                   final: seq<Key>, c: Chunk, x: seq<Token>) returns (s1: Session, s2: Session)
    requires Sized(c)
    requires s.indexesPos <= |indexes| && indexes[s.indexesPos..] == ChunkTokens(c) + x
    requires c.header.needGlobalDictionary && s.global.None? ==>
               DictionaryAt(keys, s.keysPos, final) && CreateColumnUniqueImpl(dictionaryType).Success?
    ensures ReadHeaderWord(indexes, s) == Success(s1) && LoadGlobalDictionary(dictionaryType, keys, s1) == Success(s2)
    ensures var load := c.header.needGlobalDictionary && s.global.None?;
      s2 == s.(header := c.header,
               global := if load then Some(final) else s.global,
               sharesGlobal := if load then false else s.sharesGlobal,
               keysPos := if load then s.keysPos + 1 + |final| else s.keysPos,
               indexesPos := s.indexesPos + 1)
    ensures indexes[s2.indexesPos..]
            == AdditionalKeysTokens(c) + ([Word(|c.indexes| as uint64)] + (IndexTokens(c.indexes) + x))
  {
    HeaderStage(indexes, s, c, x);
    s1 := s.(header := c.header, indexesPos := s.indexesPos + 1);
    s2 := GlobalStage(dictionaryType, keys, s1, final);
  }

  /** The additional keys and the row count. */
  lemma BackReads(indexes: seq<Token>, s: Session, c: Chunk, x: seq<Token>) returns (s1: Session, s2: Session)
    requires Sized(c) && s.header == c.header && (!c.header.hasAdditionalKeys ==> c.additionalKeys == [])
    requires s.indexesPos <= |indexes|
    requires indexes[s.indexesPos..]
             == AdditionalKeysTokens(c) + ([Word(|c.indexes| as uint64)] + (IndexTokens(c.indexes) + x))
    ensures LoadAdditionalKeys(indexes, s) == Success(s1) && ReadRowCount(indexes, s1) == Success(s2)
    ensures s2 == s.(additionalKeys := if c.header.hasAdditionalKeys then Some(c.additionalKeys) else None,
                     pendingRows := |c.indexes|,
                     indexesPos := s.indexesPos + 1 + |AdditionalKeysTokens(c)|)
    ensures s2.indexesPos <= |indexes| && indexes[s2.indexesPos..] == IndexTokens(c.indexes) + x
  {
    var y := [Word(|c.indexes| as uint64)] + (IndexTokens(c.indexes) + x);
    AdditionalKeysStage(indexes, s, c, y);
    s1 := s.(additionalKeys := if c.header.hasAdditionalKeys then Some(c.additionalKeys) else None,
             indexesPos := s.indexesPos + |AdditionalKeysTokens(c)|);
    RowCountStage(indexes, s1, |c.indexes| as uint64, IndexTokens(c.indexes) + x);
    s2 := s1.(pendingRows := |c.indexes|, indexesPos := s1.indexesPos + 1);
  }

  /** The four stages of a chunk header, chained. */
  lemma HeaderReads(dictionaryType: DataType, keys: seq<Token>, indexes: seq<Token>, s: Session,
                    final: seq<Key>, c: Chunk, x: seq<Token>)
    requires Sized(c) && (!c.header.hasAdditionalKeys ==> c.additionalKeys == [])
    requires s.indexesPos <= |indexes| && indexes[s.indexesPos..] == ChunkTokens(c) + x
    requires c.header.needGlobalDictionary && s.global.None? ==>
               DictionaryAt(keys, s.keysPos, final) && CreateColumnUniqueImpl(dictionaryType).Success?
    ensures var s1 := AfterHeader(s, c, final);
      && ReadChunkHeader(dictionaryType, keys, indexes, s) == Success(s1)
      && s1.indexesPos <= |indexes| && indexes[s1.indexesPos..] == IndexTokens(c.indexes) + x
  {
    var s1, s2 := FrontReads(dictionaryType, keys, indexes, s, final, c, x);
    var s3, s4 := BackReads(indexes, s2, c, x);
    HeaderChain(dictionaryType, keys, indexes, s, s1, s2, s3);
  }

  lemma NeedsGlobalRest(rest: seq<Chunk>)
    requires rest != [] && NeedsGlobal(rest[1..])
    ensures NeedsGlobal(rest)
  {
    var i :| 0 <= i < |rest[1..]| && rest[1..][i].header.needGlobalDictionary;
    assert rest[i + 1] == rest[1..][i];
  }

  /** Reading the start of the next chunk leaves the session inside that chunk, before its
      indexes, with the chunk's keys as the keys its indexes select from. */
  lemma ChunkHeaderRead(dictionaryType: DataType, keys: seq<Token>, indexes: seq<Token>, s: Session,
                        final: seq<Key>, rest: seq<Chunk>)
    requires Positioned(dictionaryType, keys, indexes, s, final, [], rest) && rest != []
    ensures var r := ReadChunkHeader(dictionaryType, keys, indexes, s);
      && r.Success? && r.value.values == s.values
      && Positioned(dictionaryType, keys, indexes, r.value, final, rest[0].indexes, rest[1..])
      && InChunk(r.value, rest[0].indexes, ChunkKeys(rest[0], final))
  {
    var c := rest[0];
    AllWellFormedRest(rest, final);
    StreamTokensFirst(rest);
    if c.header.needGlobalDictionary {
      assert NeedsGlobal(rest) by { assert rest[0].header.needGlobalDictionary; }
    }
    HeaderReads(dictionaryType, keys, indexes, s, final, c, StreamTokens(rest[1..]));
    var s1 := AfterHeader(s, c, final);
    assert GlobalReady(dictionaryType, keys, s1, final, rest[1..]) by {
      if s1.global.None? && NeedsGlobal(rest[1..]) {
        NeedsGlobalRest(rest);
      }
    }
  }

  lemma GatherSplit(dict: seq<Key>, xs: seq<nat>, n: nat)
    requires AllBelow(xs, |dict|) && n <= |xs|
    ensures AllBelow(xs[..n], |dict|) && AllBelow(xs[n..], |dict|)
    ensures Gather(dict, xs) == Gather(dict, xs[..n]) + Gather(dict, xs[n..])
  {
    assert forall i :: 0 <= i < n ==> xs[..n][i] == xs[i];
    assert forall i :: 0 <= i < |xs| - n ==> xs[n..][i] == xs[n + i];
  }

  /** Reading `n` pending indexes appends the keys they select and moves past them. */
  lemma ReadRowsStep(dictionaryType: DataType, keys: seq<Token>, indexes: seq<Token>, s: Session,
                     final: seq<Key>, cur: seq<nat>, dict: seq<Key>, rest: seq<Chunk>, n: nat)
    requires Positioned(dictionaryType, keys, indexes, s, final, cur, rest) && InChunk(s, cur, dict)
    requires n <= |cur|
    ensures AllBelow(cur[..n], |dict|)
    ensures var r := ReadIndexesRows(indexes, s, n);
      && r.Success? && r.value.values == s.values + Gather(dict, cur[..n])
      && r.value == s.(values := r.value.values, sharesGlobal := r.value.sharesGlobal, indexesPos := s.indexesPos + n)
      && indexes[s.indexesPos + n..] == IndexTokens(cur[n..]) + StreamTokens(rest)
  {
    GatherSplit(dict, cur, n);
    IndexesRead(indexes, s.indexesPos, cur, n, Bound(s.header.indexType), StreamTokens(rest));
    ReadIndexesSelectsChunkKeys(indexes, s, n);
  }

  /** After `n` pending indexes are read, the session can be resumed with the rest of them. */
  lemma RowsStepResumable(dictionaryType: DataType, keys: seq<Token>, indexes: seq<Token>, s: Session, s1: Session,
                          final: seq<Key>, cur: seq<nat>, dict: seq<Key>, rest: seq<Chunk>, n: nat)
    requires Positioned(dictionaryType, keys, indexes, s, final, cur, rest) && InChunk(s, cur, dict)
    requires n <= |cur| && s.indexesPos + n <= |indexes|
    requires s1 == s.(values := s1.values, sharesGlobal := s1.sharesGlobal, indexesPos := s.indexesPos + n, pendingRows := |cur| - n)
    requires indexes[s1.indexesPos..] == IndexTokens(cur[n..]) + StreamTokens(rest)
    ensures AllBelow(cur[n..], |dict|)
    ensures Resumable(dictionaryType, keys, indexes, s1, final, cur[n..], dict, rest)
  {
    assert forall i :: 0 <= i < |cur| - n ==> cur[n..][i] == cur[n + i];
    assert Positioned(dictionaryType, keys, indexes, s1, final, cur[n..], rest);
  }

  /** The next chunk of a positioned session with nothing pending. */
  lemma NextChunk(dictionaryType: DataType, keys: seq<Token>, indexes: seq<Token>, s: Session,
                  final: seq<Key>, rest: seq<Chunk>) returns (s1: Session)
    requires Positioned(dictionaryType, keys, indexes, s, final, [], rest) && s.indexesPos < |indexes|
    ensures rest != []
    ensures BeginChunk(dictionaryType, keys, indexes, s) == Success(s1) && s1.values == s.values
    ensures WellFormed(rest[0], final)
    ensures Positioned(dictionaryType, keys, indexes, s1, final, rest[0].indexes, rest[1..])
    ensures InChunk(s1, rest[0].indexes, ChunkKeys(rest[0], final))
    ensures StreamRows(rest, final) == Gather(ChunkKeys(rest[0], final), rest[0].indexes) + StreamRows(rest[1..], final)
  {
    if rest == [] {
      assert false;
    }
    AllWellFormedRest(rest, final);
    ChunkHeaderRead(dictionaryType, keys, indexes, s, final, rest);
    s1 := ReadChunkHeader(dictionaryType, keys, indexes, s).value;
  }

  /** The chunk a turn reads from: the current one while rows of it are pending, and
      otherwise the next one, whose header the turn reads first. */
  lemma Begin(dictionaryType: DataType, keys: seq<Token>, indexes: seq<Token>, s: Session,
              final: seq<Key>, cur: seq<nat>, dict: seq<Key>, rest: seq<Chunk>)
    returns (s0: Session, c0: seq<nat>, d0: seq<Key>, r0: seq<Chunk>)
    requires Resumable(dictionaryType, keys, indexes, s, final, cur, dict, rest)
    requires !(s.pendingRows == 0 && s.indexesPos >= |indexes|)
    ensures BeginChunk(dictionaryType, keys, indexes, s) == Success(s0) && s0.values == s.values
    ensures Positioned(dictionaryType, keys, indexes, s0, final, c0, r0) && InChunk(s0, c0, d0)
    ensures Remaining(final, cur, dict, rest) == Gather(d0, c0) + StreamRows(r0, final)
  {
    if s.pendingRows == 0 {
      s0 := NextChunk(dictionaryType, keys, indexes, s, final, rest);
      c0, d0, r0 := rest[0].indexes, ChunkKeys(rest[0], final), rest[1..];
    } else {
      s0, c0, d0, r0 := s, cur, dict, rest;
    }
  }

  /** The first `n` rows still to be decoded are those the first `n` pending indexes select. */
  lemma RemainingSplit(final: seq<Key>, cur: seq<nat>, dict: seq<Key>, rest: seq<Chunk>, n: nat)
    requires AllBelow(cur, |dict|) && AllWellFormed(rest, final) && n <= |cur|
    ensures AllBelow(cur[..n], |dict|) && AllBelow(cur[n..], |dict|)
    ensures var rows := Remaining(final, cur, dict, rest);
      && n <= |rows|
      && rows[..n] == Gather(dict, cur[..n])
      && rows[n..] == Remaining(final, cur[n..], dict, rest)
  {
    GatherSplit(dict, cur, n);
    var rows := Remaining(final, cur, dict, rest);
    assert rows == Gather(dict, cur[..n]) + Remaining(final, cur[n..], dict, rest);
  }

  /** The loop after a turn that starts from `s0` and reads `n` rows. */
  lemma LoopAfterTurn(dictionaryType: DataType, keys: seq<Token>, indexes: seq<Token>, s: Session, limit: nat,
                      s0: Session, n: nat) returns (s1: Session)
    requires limit > 0 && !(s.pendingRows == 0 && s.indexesPos >= |indexes|)
    requires BeginChunk(dictionaryType, keys, indexes, s) == Success(s0)
    requires n == Min(limit, s0.pendingRows) && ReadIndexesRows(indexes, s0, n).Success?
    ensures s1 == ReadIndexesRows(indexes, s0, n).value.(pendingRows := s0.pendingRows - n)
    ensures s.indexesPos < s1.indexesPos
    ensures DecodeLoop(dictionaryType, keys, indexes, s, limit) == DecodeLoop(dictionaryType, keys, indexes, s1, limit - n)
  {
    var s2 := ReadIndexesRows(indexes, s0, n).value;
    DecodeLoopContinues(dictionaryType, keys, indexes, s, limit, s0, s2);
    s1 := s2.(pendingRows := s0.pendingRows - n);
  }

  /** One turn that reads: the rows it appends are the next ones still to be decoded, and the
      session it leaves can be resumed with the rest. */
  lemma TurnStep(dictionaryType: DataType, keys: seq<Token>, indexes: seq<Token>, s: Session, limit: nat,
                 final: seq<Key>, cur: seq<nat>, dict: seq<Key>, rest: seq<Chunk>)
    returns (s1: Session, n: nat, cur1: seq<nat>, dict1: seq<Key>, rest1: seq<Chunk>)
    requires Resumable(dictionaryType, keys, indexes, s, final, cur, dict, rest)
    requires limit > 0 && !(s.pendingRows == 0 && s.indexesPos >= |indexes|)
    ensures var rows := Remaining(final, cur, dict, rest);
      && n <= limit && n <= |rows| && (n < limit ==> s1.pendingRows == 0)
      && s.indexesPos < s1.indexesPos
      && s1.values == s.values + rows[..n]
      && Resumable(dictionaryType, keys, indexes, s1, final, cur1, dict1, rest1)
      && Remaining(final, cur1, dict1, rest1) == rows[n..]
      && DecodeLoop(dictionaryType, keys, indexes, s, limit) == DecodeLoop(dictionaryType, keys, indexes, s1, limit - n)
  {
    var rows := Remaining(final, cur, dict, rest);
    var s0, c0, d0, r0 := Begin(dictionaryType, keys, indexes, s, final, cur, dict, rest);
    assert s0.pendingRows == |c0|;
    n := Min(limit, s0.pendingRows);
    ReadRowsStep(dictionaryType, keys, indexes, s0, final, c0, d0, r0, n);
    s1 := LoopAfterTurn(dictionaryType, keys, indexes, s, limit, s0, n);
    RowsStepResumable(dictionaryType, keys, indexes, s0, s1, final, c0, d0, r0, n);
    cur1, dict1, rest1 := c0[n..], d0, r0;
    RemainingSplit(final, c0, d0, r0, n);
  }

  /** What a turn reading `n` rows and the rest of the call after it append together. */
  lemma Compose(p: seq<Key>, mid: seq<Key>, out: seq<Key>, rows: seq<Key>, rows2: seq<Key>, n: nat, limit: nat)
    requires n <= limit && n <= |rows| && rows2 == rows[n..]
    requires mid == p + rows[..n] && out == mid + rows2[..Min(limit - n, |rows2|)]
    ensures out == p + rows[..Min(limit, |rows|)]
    ensures rows2[Min(limit - n, |rows2|)..] == rows[Min(limit, |rows|)..]
  {
    var k := Min(limit - n, |rows2|);
    assert n + k == Min(limit, |rows|);
    assert rows[..n] + rows[n..][..k] == rows[..n + k];
    assert out == p + (rows[..n] + rows2[..k]);
  }

  /** One call of the decoder, from a session that can be resumed: it appends the next rows
      still to be decoded, as many as the budget asks for or all that are left, and leaves a
      session that can be resumed with the rows after them. */
  lemma {:induction false} DecodeResumes(dictionaryType: DataType, keys: seq<Token>, indexes: seq<Token>, s: Session,
                                         limit: nat, final: seq<Key>, cur: seq<nat>, dict: seq<Key>, rest: seq<Chunk>)
    returns (s1: Session, cur1: seq<nat>, dict1: seq<Key>, rest1: seq<Chunk>)
    requires Resumable(dictionaryType, keys, indexes, s, final, cur, dict, rest)
    decreases limit, |indexes| - s.indexesPos, 1
    ensures var rows := Remaining(final, cur, dict, rest);
      && DecodeLoop(dictionaryType, keys, indexes, s, limit) == Success(s1)
      && s1.values == s.values + rows[..Min(limit, |rows|)]
      && Resumable(dictionaryType, keys, indexes, s1, final, cur1, dict1, rest1)
      && Remaining(final, cur1, dict1, rest1) == rows[Min(limit, |rows|)..]
  {
    var rows := Remaining(final, cur, dict, rest);
    if limit == 0 {
      s1, cur1, dict1, rest1 := s, cur, dict, rest;
    } else if s.pendingRows == 0 && s.indexesPos >= |indexes| {
      DecodeLoopStops(dictionaryType, keys, indexes, s, limit);
      StreamTokensEmpty(rest);
      s1, cur1, dict1, rest1 := s, cur, dict, rest;
      assert rows == [];
    } else {
      s1, cur1, dict1, rest1 := ResumeAfterTurn(dictionaryType, keys, indexes, s, limit, final, cur, dict, rest);
    }
  }

  /** The same, when the call makes at least one turn: that turn, then the rest of the call. */
  lemma {:induction false} ResumeAfterTurn(dictionaryType: DataType, keys: seq<Token>, indexes: seq<Token>, s: Session,
                                           limit: nat, final: seq<Key>, cur: seq<nat>, dict: seq<Key>, rest: seq<Chunk>)
    returns (s1: Session, cur1: seq<nat>, dict1: seq<Key>, rest1: seq<Chunk>)
    requires Resumable(dictionaryType, keys, indexes, s, final, cur, dict, rest)
    requires limit > 0 && !(s.pendingRows == 0 && s.indexesPos >= |indexes|)
    decreases limit, |indexes| - s.indexesPos, 0
    ensures var rows := Remaining(final, cur, dict, rest);
      && DecodeLoop(dictionaryType, keys, indexes, s, limit) == Success(s1)
      && s1.values == s.values + rows[..Min(limit, |rows|)]
      && Resumable(dictionaryType, keys, indexes, s1, final, cur1, dict1, rest1)
      && Remaining(final, cur1, dict1, rest1) == rows[Min(limit, |rows|)..]
  {
    var rows := Remaining(final, cur, dict, rest);
    var s2, n, cur2, dict2, rest2 := TurnStep(dictionaryType, keys, indexes, s, limit, final, cur, dict, rest);
    s1, cur1, dict1, rest1 := DecodeResumes(dictionaryType, keys, indexes, s2, limit - n, final, cur2, dict2, rest2);
    Compose(s.values, s2.values, s1.values, rows, Remaining(final, cur2, dict2, rest2), n, limit);
  }

  /** The keys substream a run of calls leaves: the version word of the prefix, what the calls
      wrote, and, with a capacity set, the global dictionary the suffix writes. */
  function KeysStream(r: Encoding, settings: Settings): seq<Token>
    requires |r.global| < U64Limit
  {
    [Word(1)] + r.keysWritten + (if settings.maxDictionarySize != 0 then DictionaryTokens(r.global) else [])
  }

  /** The session a decoder starts from once the prefix is read, appending to a column that
      holds `values` and shares no dictionary. */
  function StartSession(values: seq<Key>): Session {
    Session(None, Header(TUInt8, false, false), None, 0, values, false, 1, 0)
  }

  /** The first session: positioned before the whole chunk stream, with nothing pending. */
  lemma StartPositioned(dictionaryType: DataType, keys: seq<Token>, chunks: seq<Chunk>, final: seq<Key>, values: seq<Key>)
    requires AllWellFormed(chunks, final)
    requires NeedsGlobal(chunks) ==> DictionaryAt(keys, 1, final) && CreateColumnUniqueImpl(dictionaryType).Success?
    ensures Resumable(dictionaryType, keys, StreamTokens(chunks), StartSession(values), final, [], [], chunks)
    ensures Remaining(final, [], [], chunks) == StreamRows(chunks, final)
  {
    var indexes := StreamTokens(chunks);
    assert indexes[0..] == IndexTokens([]) + indexes;
    assert Gather<Key>([], []) == [];
  }

  /** With a capacity set the suffix leaves the final global dictionary right after the
      version word. */
  lemma SuffixDictionary(r: Encoding, settings: Settings)
    requires |r.global| < U64Limit && r.keysWritten == [] && settings.maxDictionarySize != 0
    ensures DictionaryAt(KeysStream(r, settings), 1, r.global)
  {
    var keys := KeysStream(r, settings);
    assert keys == [Word(1)] + DictionaryTokens(r.global);
    assert keys[1..1 + 1 + |r.global|] == DictionaryTokens(r.global);
  }

  /** The session after the prefix can be resumed with every chunk the calls wrote. */
  lemma StartResumable(dictionaryType: DataType, calls: seq<seq<Key>>, settings: Settings, values: seq<Key>)
    requires CreateColumnUniqueImpl(dictionaryType).Success?
    requires !settings.useNewDictionaryOnOverflow
    requires AllFit([], calls, settings)
    requires settings.maxDictionarySize != 0 || forall i :: 0 <= i < |calls| ==> calls[i] != []
    ensures var r := EncodeCalls([], calls, settings);
      && |r.global| < U64Limit
      && Resumable(dictionaryType, KeysStream(r, settings), StreamTokens(r.chunks), StartSession(values),
                   r.global, [], [], r.chunks)
      && Remaining(r.global, [], [], r.chunks) == Flatten(calls)
  {
    var r := EncodeCalls([], calls, settings);
    EncodeCallsDictionary([], calls, settings);
    EncodeCallsDecodes([], calls, settings);
    if NeedsGlobal(r.chunks) {
      var i :| 0 <= i < |r.chunks| && r.chunks[i].header.needGlobalDictionary;
      SuffixDictionary(r, settings);
    }
    StartPositioned(dictionaryType, KeysStream(r, settings), r.chunks, r.global, values);
  }

  /** The round trip. Without dictionary replacement, a decoder that starts after the prefix
      and is given the two substreams a run of encoder calls and the suffix wrote appends the
      rows of those calls, in order, as many as its budget asks for or all of them; and it can
      be resumed for the rest. */
  lemma EncodeThenDecode(dictionaryType: DataType, calls: seq<seq<Key>>, settings: Settings, values: seq<Key>,
                         limit: nat) returns (s1: Session)
    requires CreateColumnUniqueImpl(dictionaryType).Success?
    requires !settings.useNewDictionaryOnOverflow
    requires AllFit([], calls, settings)
    requires settings.maxDictionarySize != 0 || forall i :: 0 <= i < |calls| ==> calls[i] != []
    ensures var r := EncodeCalls([], calls, settings);
      var rows := Flatten(calls);
      && |r.global| < U64Limit
      && DecodeLoop(dictionaryType, KeysStream(r, settings), StreamTokens(r.chunks), StartSession(values), limit)
         == Success(s1)
      && s1.values == values + rows[..Min(limit, |rows|)]
  {
    StartResumable(dictionaryType, calls, settings, values);
    var r := EncodeCalls([], calls, settings);
    var cur, dict, rest;
    s1, cur, dict, rest := DecodeResumes(dictionaryType, KeysStream(r, settings), StreamTokens(r.chunks),
                                         StartSession(values), limit, r.global, [], [], r.chunks);
  }

  /** One row, one key: the key at position 0. */
  lemma CompactOne(k: Key)
    ensures CutAndCompact([k]) == ([0], [k])
  {
    assert Dedup([k]) == [k] by {
      assert [k][..0] == [];
      assert Dedup([]) == [];
    }
    var r := CutAndCompact([k]);
    assert r.1 == [k];
    assert IndexOf([k], k) == 0;
    assert |r.0| == 1 && r.0[0] == 0;
    assert r.0 == [0];
  }

  lemma InsertOne(k: Key)
    ensures InsertRangeWithOverflow([], [k], 1) == IndexesWithOverflow([k], [0], [])
  {
    assert [k][..0] == [];
    assert InsertRangeWithOverflow([], [], 1) == IndexesWithOverflow([], [], []);
  }

  /** Under a capacity of one key, a single key goes into an empty global dictionary. */
  lemma IndexChunkOne(k: Key)
    ensures IndexChunk([], [k], 1) == ChunkIndexes([0], [], [k])
  {
    CompactOne(k);
    InsertOne(k);
    assert Gather([0], [0]) == [0];
  }

  /** A capacity of one key, with dictionary replacement on. */
  predicate OneKeyCapacity(settings: Settings) {
    settings.maxDictionarySize == 1 && settings.useNewDictionaryOnOverflow
  }

  /** With a capacity of one key and replacement on, a one-row call starting from an empty
      global dictionary fills it with its key, writes it out and starts over: the chunk is the
      same whatever the key. */
  lemma OneKeyCall(k: Key, settings: Settings)
    requires OneKeyCapacity(settings)
    ensures var e := EncodeChunk([], [k], settings);
      && Fits([], [k], settings)
      && e.chunk == Chunk(Header(TUInt8, false, true), [], [0])
      && e.dictionaryWrite == DictionaryTokens([k]) && e.global == []
  {
    IndexChunkOne(k);
    EncodeChunkShape([], [k], settings);
    assert MaxIndex([0]) == 0 by {
      assert [0][..0] == [];
    }
  }

  /** A run of calls is its first call followed by the run of the others. */
  lemma EncodeCallsFirst(global: seq<Key>, calls: seq<seq<Key>>, settings: Settings)
    requires calls != []
    requires |global| <= settings.maxDictionarySize || settings.maxDictionarySize == 0
    requires AllFit(global, calls, settings)
    ensures Fits(global, calls[0], settings)
    ensures var e := EncodeChunk(global, calls[0], settings);
      && AllFit(e.global, calls[1..], settings)
      && (|e.global| <= settings.maxDictionarySize || settings.maxDictionarySize == 0)
      && var rest := EncodeCalls(e.global, calls[1..], settings);
      && EncodeCalls(global, calls, settings)
         == Encoding([e.chunk] + rest.chunks, e.dictionaryWrite + rest.keysWritten, rest.global)
  {
    FitsFirst(global, calls, settings);
    var e := EncodeChunk(global, calls[0], settings);
    FitsRest(global, e.global, calls, settings);
  }

  /** The chunk every such call writes. */
  function OneKeyChunk(): Chunk {
    Chunk(Header(TUInt8, false, true), [], [0])
  }

  lemma OneKeyFits(calls: seq<seq<Key>>, settings: Settings)
    requires OneKeyCapacity(settings) && |calls| < U64Limit && forall i :: 0 <= i < |calls| ==> |calls[i]| == 1
    ensures AllFit([], calls, settings)
  {
    FlattenOnes(calls);
  }

  /** One-row calls have as many rows as calls. */
  lemma {:induction false} FlattenOnes(calls: seq<seq<Key>>)
    requires forall i :: 0 <= i < |calls| ==> |calls[i]| == 1
    ensures |Flatten(calls)| == |calls|
    decreases |calls|
  {
    if calls != [] {
      FlattenOnes(calls[1..]);
    }
  }

  /** The first of a run of one-row calls under that setting, starting from an empty global
      dictionary, leaves it empty for the others. */
  lemma OneKeyFirst(calls: seq<seq<Key>>, settings: Settings)
    requires OneKeyCapacity(settings) && calls != [] && |calls| < U64Limit && forall i :: 0 <= i < |calls| ==> |calls[i]| == 1
    ensures AllFit([], calls, settings) && AllFit([], calls[1..], settings)
    ensures var rest := EncodeCalls([], calls[1..], settings);
      EncodeCalls([], calls, settings)
      == Encoding([OneKeyChunk()] + rest.chunks, DictionaryTokens(calls[0]) + rest.keysWritten, rest.global)
  {
    OneKeyFits(calls, settings);
    assert calls[0] == [calls[0][0]];
    OneKeyCall(calls[0][0], settings);
    EncodeCallsFirst([], calls, settings);
  }

  /** A last one-row call under that setting writes one chunk and its key. */
  lemma LastOneKeyCall(calls: seq<seq<Key>>, settings: Settings)
    requires OneKeyCapacity(settings) && |calls| == 1 && |calls[0]| == 1
    ensures AllFit([], calls, settings)
    ensures EncodeCalls([], calls, settings) == Encoding([OneKeyChunk()], DictionaryTokens(calls[0]), [])
  {
    OneKeyFirst(calls, settings);
    var rest := EncodeCalls([], calls[1..], settings);
    NoCalls(calls[1..], settings);
    AppendNothing([OneKeyChunk()], rest.chunks);
    AppendNothing(DictionaryTokens(calls[0]), rest.keysWritten);
  }

  /** No calls write nothing and leave the empty dictionary as it is. */
  lemma NoCalls(calls: seq<seq<Key>>, settings: Settings)
    requires calls == [] && AllFit([], calls, settings)
    ensures EncodeCalls([], calls, settings) == Encoding([], [], [])
  {
  }

  lemma AppendNothing<T>(x: seq<T>, e: seq<T>)
    requires e == []
    ensures x + e == x
  {
  }

  /** Two one-row calls under that setting write the same chunk twice, and each its own key
      as a whole dictionary, leaving the global dictionary empty. */
  lemma TwoOneKeyCalls(calls: seq<seq<Key>>, settings: Settings)
    requires OneKeyCapacity(settings) && |calls| == 2 && |calls[0]| == 1 && |calls[1]| == 1
    ensures AllFit([], calls, settings)
    ensures EncodeCalls([], calls, settings)
            == Encoding([OneKeyChunk(), OneKeyChunk()], DictionaryTokens(calls[0]) + DictionaryTokens(calls[1]), [])
  {
    OneKeyFirst(calls, settings);
    var last := calls[1..];
    LastOneKeyCall(last, settings);
    var rest := EncodeCalls([], last, settings);
    assert rest.chunks == [OneKeyChunk()] && rest.keysWritten == DictionaryTokens(calls[1]) && rest.global == [];
    Twice(OneKeyChunk());
  }

  lemma Twice<T>(x: T)
    ensures [x] + [x] == [x, x]
  {
  }

  lemma FlattenTwo(a: Key, b: Key)
    ensures Flatten([[a], [b]]) == [a, b]
  {
    assert [[a], [b]][1..] == [[b]] && [[b]][1..] == [];
    assert Flatten([[b]]) == [b] + Flatten([]);
  }

  /** A keys substream whose first write after the version word is the dictionary `[a]`. */
  lemma VersionThenDictionary(a: Key, written: seq<Token>, more: seq<Token>, tail: seq<Token>)
    requires written == DictionaryTokens([a]) + more
    ensures DictionaryAt([Word(1)] + written + tail, 1, [a])
  {
    var keys := [Word(1)] + written + tail;
    assert keys[1..3] == DictionaryTokens([a]);
  }

  /** The chunk written twice stands for the key of the dictionary read, twice. */
  lemma OneKeyChunkRows(a: Key)
    ensures AllWellFormed([OneKeyChunk(), OneKeyChunk()], [a])
    ensures StreamRows([OneKeyChunk(), OneKeyChunk()], [a]) == [a, a]
  {
    var c := OneKeyChunk();
    assert WellFormed(c, [a]) && ChunkRows(c, [a]) == [a];
    assert [c, c][1..] == [c] && [c][1..] == [];
    assert StreamRows([c], [a]) == [a] + StreamRows([], [a]) == [a];
    Twice(a);
  }

  /** A decoder given that chunk twice, with `[a]` as the dictionary after the version word,
      appends `a` twice. */
  lemma DecodeOneKeyChunks(dictionaryType: DataType, keys: seq<Token>, a: Key, values: seq<Key>) returns (s1: Session)
    requires CreateColumnUniqueImpl(dictionaryType).Success? && DictionaryAt(keys, 1, [a])
    ensures var c := OneKeyChunk();
      && DecodeLoop(dictionaryType, keys, StreamTokens([c, c]), StartSession(values), 2) == Success(s1)
      && s1.values == values + [a, a]
  {
    var c := OneKeyChunk();
    OneKeyChunkRows(a);
    StartPositioned(dictionaryType, keys, [c, c], [a], values);
    var cur, dict, rest;
    s1, cur, dict, rest := DecodeResumes(dictionaryType, keys, StreamTokens([c, c]), StartSession(values), 2, [a], [], [], [c, c]);
  }

  lemma SecondRowDiffers(values: seq<Key>, a: Key, b: Key)
    requires a != b
    ensures values + [a, a] != values + [a, b]
  {
    assert (values + [a, a])[|values| + 1] != (values + [a, b])[|values| + 1];
  }

  /** Dictionary replacement breaks the round trip: every chunk written after a replacement
      refers to a dictionary the decoder never reads, since it reads the global dictionary once,
      at the first chunk that needs it. Two one-row calls of distinct keys `a` and `b`, under a
      capacity of one key, write the same chunk twice, and the decoder returns `a` twice. */
  lemma RotationLosesRows(dictionaryType: DataType, settings: Settings, a: Key, b: Key, values: seq<Key>)
    returns (s1: Session)
    requires CreateColumnUniqueImpl(dictionaryType).Success? && OneKeyCapacity(settings) && a != b
    ensures var calls := [[a], [b]];
      && AllFit([], calls, settings)
      && var r := EncodeCalls([], calls, settings);
      && |r.global| < U64Limit
      && DecodeLoop(dictionaryType, KeysStream(r, settings), StreamTokens(r.chunks), StartSession(values), 2)
         == Success(s1)
      && Flatten(calls) == [a, b]
      && s1.values == values + [a, a] != values + Flatten(calls)
  {
    var calls := [[a], [b]];
    TwoOneKeyCalls(calls, settings);
    FlattenTwo(a, b);
    var r := EncodeCalls([], calls, settings);
    VersionThenDictionary(a, r.keysWritten, DictionaryTokens([b]), DictionaryTokens(r.global));
    s1 := DecodeOneKeyChunks(dictionaryType, KeysStream(r, settings), a, values);
    SecondRowDiffers(values, a, b);
  }
}
