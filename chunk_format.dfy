/** The layout of one chunk in the indexes substream, as the encoder writes it and the
    decoder reads it back: the header word, then (when the header says so) the count and the
    chunk's additional keys, then the row count and one index per row. */
module ChunkFormat {
  import opened Errors
  import opened Seqs
  import opened Streams
  import opened IndexesSerializationType

  /** The word a chunk header is written as, as a number: the width tag plus 2^8 for the
      global-dictionary flag and 2^9 for the additional-keys flag. */
  function HeaderWord(h: Header): uint64 {
    var tag := match h.indexType
      case TUInt8 => 0
      case TUInt16 => 1
      case TUInt32 => 2
      case TUInt64 => 3;
    tag + (if h.needGlobalDictionary then 0x100 else 0) + (if h.hasAdditionalKeys then 0x200 else 0)
  }

  /** The number is the word `Serialize` builds bit by bit. */
  lemma HeaderWordBits(h: Header)
    ensures HeaderWord(h) as bv64 == Serialize(h)
  {
    match h.indexType
    case TUInt8 =>
    case TUInt16 =>
    case TUInt32 =>
    case TUInt64 =>
  }

  /** The header a word read back stands for. */
  function HeaderOfWord(w: uint64): Result<Header> {
    Deserialize(w as bv64)
  }

  datatype Chunk = Chunk(header: Header, additionalKeys: seq<Key>, indexes: seq<nat>)

  predicate Sized(c: Chunk) {
    |c.additionalKeys| < U64Limit && |c.indexes| < U64Limit
  }

  function ChunkTokens(c: Chunk): seq<Token>
    requires Sized(c)
  {
    [Word(HeaderWord(c.header))] + AdditionalKeysTokens(c) + [Word(|c.indexes| as uint64)] + IndexTokens(c.indexes)
  }

  /** The additional keys with their count, when the header announces them. */
  function AdditionalKeysTokens(c: Chunk): seq<Token>
    requires Sized(c)
  {
    if c.header.hasAdditionalKeys then [Word(|c.additionalKeys| as uint64)] + KeyTokens(c.additionalKeys) else []
  }

  /** The tokens of a chunk appended to `ts`, one part after another. */
  lemma AppendChunkTokens(ts: seq<Token>, c: Chunk)
    requires Sized(c)
    ensures ts + ChunkTokens(c)
            == ts + [Word(HeaderWord(c.header))] + AdditionalKeysTokens(c) + [Word(|c.indexes| as uint64)] + IndexTokens(c.indexes)
  {
  }

  /** The tokens of a chunk followed by `ts`, grouped as a reader takes them, front first. */
  lemma ChunkTokensThen(c: Chunk, ts: seq<Token>)
    requires Sized(c)
    ensures ChunkTokens(c) + ts
            == [Word(HeaderWord(c.header))] + (AdditionalKeysTokens(c) + ([Word(|c.indexes| as uint64)] + (IndexTokens(c.indexes) + ts)))
  {
  }

  /** The keys a chunk's indexes refer to: the global dictionary followed by the chunk's
      additional keys, or the additional keys alone. */
  function ChunkKeys(c: Chunk, global: seq<Key>): seq<Key> {
    if c.header.needGlobalDictionary then global + c.additionalKeys else c.additionalKeys
  }

  /** A chunk whose every index selects a key and fits the declared width, and which refers
      to at least one set of keys. */
  predicate WellFormed(c: Chunk, global: seq<Key>) {
    && Sized(c)
    && (!c.header.hasAdditionalKeys ==> c.additionalKeys == [])
    && (c.header.needGlobalDictionary || c.header.hasAdditionalKeys)
    && AllBelow(c.indexes, Bound(c.header.indexType))
    && AllBelow(c.indexes, |ChunkKeys(c, global)|)
  }

  /** The row values a chunk stands for. */
  function ChunkRows(c: Chunk, global: seq<Key>): seq<Key>
    requires WellFormed(c, global)
  {
    Gather(ChunkKeys(c, global), c.indexes)
  }

  predicate AllWellFormed(cs: seq<Chunk>, global: seq<Key>) {
    forall i :: 0 <= i < |cs| ==> WellFormed(cs[i], global)
  }

  /** The indexes substream made of the chunks `cs`, in order. */
  function StreamTokens(cs: seq<Chunk>): seq<Token>
    requires forall i :: 0 <= i < |cs| ==> Sized(cs[i])
  {
    if cs == [] then [] else ChunkTokens(cs[0]) + StreamTokens(cs[1..])
  }

  /** The row values of the chunks `cs`, in order. */
  function StreamRows(cs: seq<Chunk>, global: seq<Key>): seq<Key>
    requires AllWellFormed(cs, global)
  {
    if cs == [] then [] else ChunkRows(cs[0], global) + StreamRows(cs[1..], global)
  }

  /** Whether some chunk refers to the global dictionary. */
  predicate NeedsGlobal(cs: seq<Chunk>) {
    exists i :: 0 <= i < |cs| && cs[i].header.needGlobalDictionary
  }
}
