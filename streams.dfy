/** The two substreams (keys and indexes) as sequences of tokens instead of bytes: a 64-bit
    word written by writeIntBinary, one key written by the key type's bulk serializer, or
    one index written at the width the chunk header declares. */
module Streams {
  import opened Errors
  import opened Seqs

  /** A key value, as its type serializes it. */
  type Key = seq<bv8>

  /** Counts, sizes and chunk headers are written as unsigned 64-bit words. */
  const U64Limit: nat := 0x1_0000_0000_0000_0000
  newtype uint64 = x: int | 0 <= x < U64Limit

  datatype Token = Word(word: uint64) | KeyToken(key: Key) | IndexToken(index: nat)

  function KeyTokens(keys: seq<Key>): (ts: seq<Token>)
    ensures |ts| == |keys|
    ensures forall i :: 0 <= i < |keys| ==> ts[i] == KeyToken(keys[i])
  {
    seq(|keys|, i requires 0 <= i < |keys| => KeyToken(keys[i]))
  }

  function IndexTokens(indexes: seq<nat>): (ts: seq<Token>)
    ensures |ts| == |indexes|
    ensures forall i :: 0 <= i < |indexes| ==> ts[i] == IndexToken(indexes[i])
  {
    seq(|indexes|, i requires 0 <= i < |indexes| => IndexToken(indexes[i]))
  }

  /** A value read from a stream, and the position just after it. */
  datatype Read<T> = Read(value: T, next: nat)

  /** readIntBinary of a 64-bit word at `pos`. */
  function WordAt(ts: seq<Token>, pos: nat): (r: Result<Read<uint64>>)
    ensures r.Success? <==> pos < |ts| && ts[pos].Word?
    ensures r.Success? ==> r.value == Read(ts[pos].word, pos + 1)
  {
    if pos >= |ts| then Failure(CannotReadAllData)
    else if !ts[pos].Word? then Failure(MalformedStream)
    else Success(Read(ts[pos].word, pos + 1))
  }

  /** `n` keys at `pos`. */
  function KeysAt(ts: seq<Token>, pos: nat, n: nat): (r: Result<Read<seq<Key>>>)
    ensures r.Success? <==> pos + n <= |ts| && forall i :: pos <= i < pos + n ==> ts[i].KeyToken?
    ensures r.Success? ==> r.value.next == pos + n && ts[pos..pos + n] == KeyTokens(r.value.value)
  {
    if pos + n > |ts| then Failure(CannotReadAllData)
    else if exists i :: pos <= i < pos + n && !ts[i].KeyToken? then Failure(MalformedStream)
    else Success(Read(seq(n, i requires 0 <= i < n => ts[pos + i].key), pos + n))
  }

  /** `n` indexes of a column whose width holds values below `bound`, at `pos`: a fixed-width
      read cannot produce a wider value, so a wider token is a malformed stream. */
  function IndexesAt(ts: seq<Token>, pos: nat, n: nat, bound: nat): (r: Result<Read<seq<nat>>>)
    ensures r.Success? <==>
              pos + n <= |ts| && forall i :: pos <= i < pos + n ==> ts[i].IndexToken? && ts[i].index < bound
    ensures r.Success? ==> r.value.next == pos + n && ts[pos..pos + n] == IndexTokens(r.value.value)
    ensures r.Success? ==> AllBelow(r.value.value, bound)
  {
    if pos + n > |ts| then Failure(CannotReadAllData)
    else if exists i :: pos <= i < pos + n && !(ts[i].IndexToken? && ts[i].index < bound) then Failure(MalformedStream)
    else Success(Read(seq(n, i requires 0 <= i < n => ts[pos + i].index), pos + n))
  }

  /** A substream being read. */
  class ReadBuffer {
    const tokens: seq<Token>
    var pos: nat

    constructor (tokens: seq<Token>)
      ensures this.tokens == tokens && pos == 0
    {
      this.tokens := tokens;
      pos := 0;
    }

    predicate Eof()
      reads this
    {
      pos >= |tokens|
    }

    method ReadIntBinary() returns (r: Result<uint64>)
      modifies this
      ensures var w := WordAt(tokens, old(pos));
        && (w.Success? ==> r == Success(w.value.value) && pos == w.value.next)
        && (w.Failure? ==> r == Failure(w.error) && pos == old(pos))
    {
      var w := WordAt(tokens, pos);
      if w.Failure? {
        return Failure(w.error);
      }
      r, pos := Success(w.value.value), w.value.next;
    }

    method ReadKeys(n: nat) returns (r: Result<seq<Key>>)
      modifies this
      ensures var k := KeysAt(tokens, old(pos), n);
        && (k.Success? ==> r == Success(k.value.value) && pos == k.value.next)
        && (k.Failure? ==> r == Failure(k.error) && pos == old(pos))
    {
      var k := KeysAt(tokens, pos, n);
      if k.Failure? {
        return Failure(k.error);
      }
      r, pos := Success(k.value.value), k.value.next;
    }

    method ReadIndexes(n: nat, bound: nat) returns (r: Result<seq<nat>>)
      modifies this
      ensures var x := IndexesAt(tokens, old(pos), n, bound);
        && (x.Success? ==> r == Success(x.value.value) && pos == x.value.next)
        && (x.Failure? ==> r == Failure(x.error) && pos == old(pos))
    {
      var x := IndexesAt(tokens, pos, n, bound);
      if x.Failure? {
        return Failure(x.error);
      }
      r, pos := Success(x.value.value), x.value.next;
    }
  }

  /** A substream being written. */
  class WriteBuffer {
    var tokens: seq<Token>

    constructor ()
      ensures tokens == []
    {
      tokens := [];
    }

    method Write(ts: seq<Token>)
      modifies this
      ensures tokens == old(tokens) + ts
    {
      tokens := tokens + ts;
    }
  }
}
