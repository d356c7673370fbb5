/** The chunk header: one 64-bit word holding the width tag of the chunk's index column in
    its low bits, bit 8 for "needs the global dictionary" and bit 9 for "has additional keys". */
module IndexesSerializationType {
  import opened Errors
  import opened KeyTypes

  const NeedGlobalDictionaryBit: bv64 := 1 << 8
  const HasAdditionalKeysBit: bv64 := 1 << 9
  const FlagBits: bv64 := HasAdditionalKeysBit | NeedGlobalDictionaryBit

  /** The four widths of an index column. */
  datatype IndexType = TUInt8 | TUInt16 | TUInt32 | TUInt64

  /** The tag of a width: 0, 1, 2, 3. */
  function Code(t: IndexType): bv64 {
    match t
    case TUInt8 => 0
    case TUInt16 => 1
    case TUInt32 => 2
    case TUInt64 => 3
  }

  /** One more than the largest index an index column of width `t` holds. */
  function Bound(t: IndexType): nat {
    match t
    case TUInt8 => 0x100
    case TUInt16 => 0x1_0000
    case TUInt32 => 0x1_0000_0000
    case TUInt64 => 0x1_0000_0000_0000_0000
  }

  datatype Header = Header(indexType: IndexType, hasAdditionalKeys: bool, needGlobalDictionary: bool)

  /** The word with both flag bits cleared and every other bit kept. */
  function ResetFlags(w: bv64): (r: bv64)
    ensures r & FlagBits == 0
    ensures r | (w & FlagBits) == w
  {
    w & !FlagBits
  }

  /** A word is a well-formed header exactly when, flags aside, it is one of the four tags. */
  function CheckType(w: bv64): (o: Outcome)
    ensures o.Pass? <==> exists t: IndexType :: ResetFlags(w) == Code(t)
    ensures o.Fail? ==> o.error == InvalidIndexType
  {
    if ResetFlags(w) <= Code(TUInt64) then
      assert ResetFlags(w) == Code(TypeOfCode(ResetFlags(w)));
      Pass
    else
      Fail(InvalidIndexType)
  }

  /** The width whose tag is `v`. */
  function TypeOfCode(v: bv64): (t: IndexType)
    requires v <= 3
    ensures Code(t) == v
  {
    if v == 0 then TUInt8 else if v == 1 then TUInt16 else if v == 2 then TUInt32 else TUInt64
  }

  /** The tag OR'd with the flags that are set. */
  function Serialize(h: Header): (w: bv64) {
    var val := Code(h.indexType);
    var val := if h.hasAdditionalKeys then val | HasAdditionalKeysBit else val;
    if h.needGlobalDictionary then val | NeedGlobalDictionaryBit else val
  }

  /** The written word carries the width tag in its low bits and each flag in its own bit. */
  lemma SerializeFields(h: Header)
    ensures ResetFlags(Serialize(h)) == Code(h.indexType)
    ensures (Serialize(h) & HasAdditionalKeysBit != 0) == h.hasAdditionalKeys
    ensures (Serialize(h) & NeedGlobalDictionaryBit != 0) == h.needGlobalDictionary
  {
    match h.indexType
    case TUInt8 =>
    case TUInt16 =>
    case TUInt32 =>
    case TUInt64 =>
  }

  /** Reads a header word: rejected unless well formed, and then the only word that the
      header it yields serializes to. */
  function Deserialize(w: bv64): (r: Result<Header>)
    ensures r.Success? <==> CheckType(w).Pass?
    ensures r.Failure? ==> r.error == InvalidIndexType
    ensures r.Success? ==> Serialize(r.value) == w
  {
    if CheckType(w).Fail? then Failure(InvalidIndexType)
    else
      var h := Header(TypeOfCode(ResetFlags(w)), w & HasAdditionalKeysBit != 0, w & NeedGlobalDictionaryBit != 0);
      assert Serialize(h) == w by { SerializeCanonical(w); }
      Success(h)
  }

  lemma SerializeCanonical(w: bv64)
    requires ResetFlags(w) <= 3
    ensures Serialize(Header(TypeOfCode(ResetFlags(w)), w & HasAdditionalKeysBit != 0,
                             w & NeedGlobalDictionaryBit != 0)) == w
  {
  }

  /** Every header survives a write and a read, whatever its width and flags. */
  lemma RoundTrip(h: Header)
    ensures Deserialize(Serialize(h)) == Success(h)
  {
    var w := Serialize(h);
    SerializeFields(h);
    assert TypeOfCode(ResetFlags(w)) == h.indexType;
  }

  /** A read fails exactly when the word, with bits 8 and 9 cleared, exceeds 3. */
  lemma RejectsExactly(w: bv64)
    ensures Deserialize(w).Failure? <==> ResetFlags(w) > 3
  {
    if ResetFlags(w) > 3 {
      forall t: IndexType ensures ResetFlags(w) != Code(t) { }
    }
  }

  /** The width tag of an index column: only the four unsigned columns have one. */
  function FromIndexesColumn(element: NumberKind): (r: Result<IndexType>)
    ensures r.Success? <==> element in {UInt8, UInt16, UInt32, UInt64}
    ensures r.Failure? ==> r.error == InvalidIndexesColumn
  {
    match element
    case UInt8 => Success(TUInt8)
    case UInt16 => Success(TUInt16)
    case UInt32 => Success(TUInt32)
    case UInt64 => Success(TUInt64)
    case _ => Failure(InvalidIndexesColumn)
  }

  /** The header of a chunk, from its index column and its two flags. */
  function NewHeader(indexes: NumberKind, hasAdditionalKeys: bool, needGlobalDictionary: bool): (r: Result<Header>)
    ensures r.Success? ==> FromIndexesColumn(indexes) == Success(r.value.indexType)
    ensures r.Success? ==> r.value.hasAdditionalKeys == hasAdditionalKeys
    ensures r.Success? ==> r.value.needGlobalDictionary == needGlobalDictionary
    ensures r.Failure? <==> FromIndexesColumn(indexes).Failure?
  {
    var t :- FromIndexesColumn(indexes);
    Success(Header(t, hasAdditionalKeys, needGlobalDictionary))
  }

  /** The number type an index column of width `t` is read back as: it has exactly width `t`. */
  function GetDataType(t: IndexType): (k: NumberKind)
    ensures FromIndexesColumn(k) == Success(t)
  {
    match t
    case TUInt8 => UInt8
    case TUInt16 => UInt16
    case TUInt32 => UInt32
    case TUInt64 => UInt64
  }

  /** The width tag of a column and the type it is read back as are inverse. */
  lemma GetDataTypeInverse(k: NumberKind, t: IndexType)
    ensures FromIndexesColumn(k) == Success(t) <==> GetDataType(t) == k
  {
  }

  /** The narrowest width that holds every index up to `maxIndex`: how an index column picks
      its width. */
  function FitIndexType(maxIndex: nat): (t: IndexType)
    ensures maxIndex < Bound(TUInt64) ==> maxIndex < Bound(t)
    ensures t == TUInt8 || maxIndex >= Bound(Narrower(t))
  {
    if maxIndex < Bound(TUInt8) then TUInt8
    else if maxIndex < Bound(TUInt16) then TUInt16
    else if maxIndex < Bound(TUInt32) then TUInt32
    else TUInt64
  }

  /** The next narrower width, the narrowest being its own. */
  function Narrower(t: IndexType): IndexType {
    match t
    case TUInt8 => TUInt8
    case TUInt16 => TUInt8
    case TUInt32 => TUInt16
    case TUInt64 => TUInt32
  }
}
