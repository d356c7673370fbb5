/** The key types a dictionary-encoded column may wrap: the check the dictionary-encoded
    type makes when it is constructed, and the dispatch that picks the concrete dictionary
    column (a column of unique keys) for a key type. */
module KeyTypes {
  import opened Errors

  /** The ten types of the number type list, in its order. */
  datatype NumberKind = UInt8 | UInt16 | UInt32 | UInt64 | Int8 | Int16 | Int32 | Int64 | Float32 | Float64

  /** The categories of logical type the codec tells apart. */
  datatype DataType =
    | Nullable(nested: DataType)
    | String
    | FixedString(n: nat)
    | Date
    | DateTime
    | Number(kind: NumberKind)
    | OtherNumber(name: string)  // a type that calls itself a number but is none of the ten
    | Other(name: string)        // arrays, tuples and every other category

  /** The Nullable wrapper is stripped once: nullness lives in the index, not in the keys. */
  function RemoveNullable(t: DataType): DataType {
    if t.Nullable? then t.nested else t
  }

  predicate IsStringOrFixedString(t: DataType) { t.String? || t.FixedString? }
  predicate IsDateOrDateTime(t: DataType) { t.Date? || t.DateTime? }
  predicate IsNumber(t: DataType) { t.Number? || t.OtherNumber? }

  /** The concrete column kinds keys are stored in. */
  datatype ColumnKind = ColumnString | ColumnFixedString(n: nat) | ColumnVector(element: NumberKind)

  /** The column a non-nullable key type stores its values in, as the type itself creates it:
      a Date is a 16-bit day number and a DateTime a 32-bit second count. None for a type
      that has no plain column of keys. */
  function KeysColumnKind(t: DataType): Option<ColumnKind> {
    match t
    case String => Some(ColumnString)
    case FixedString(n) => Some(ColumnFixedString(n))
    case Date => Some(ColumnVector(UInt16))
    case DateTime => Some(ColumnVector(UInt32))
    case Number(k) => Some(ColumnVector(k))
    case _ => None
  }

  /** A dictionary-encoded type, holding the type of its keys. */
  datatype DataTypeWithDictionary = DataTypeWithDictionary(dictionaryType: DataType)

  /** Construction succeeds only over strings, fixed strings, dates, date-times and numbers,
      each optionally Nullable. */
  function NewDataTypeWithDictionary(dictionaryType: DataType): (r: Result<DataTypeWithDictionary>)
    ensures r.Success? <==>
              KeysColumnKind(RemoveNullable(dictionaryType)).Some? || RemoveNullable(dictionaryType).OtherNumber?
    ensures r.Success? ==> r.value.dictionaryType == dictionaryType
    ensures r.Failure? ==> r.error == IllegalKeyType
  {
    var inner := RemoveNullable(dictionaryType);
    if !IsStringOrFixedString(inner) && !IsDateOrDateTime(inner) && !IsNumber(inner) then
      Failure(IllegalKeyType)
    else
      Success(DataTypeWithDictionary(dictionaryType))
  }

  /** Picks the column of unique keys for a key type: the dictionary column always wraps
      the very column kind the key type stores its values in, and every other type is an error. */
  function CreateColumnUniqueImpl(keysType: DataType): (r: Result<ColumnKind>)
    ensures r.Success? <==> KeysColumnKind(RemoveNullable(keysType)).Some?
    ensures r.Success? ==> KeysColumnKind(RemoveNullable(keysType)) == Some(r.value)
    ensures r.Failure? && RemoveNullable(keysType).OtherNumber? ==> r.error == UnexpectedNumericType
    ensures r.Failure? && !RemoveNullable(keysType).OtherNumber? ==> r.error == UnexpectedDictionaryType
  {
    var t := RemoveNullable(keysType);
    if t.String? then Success(ColumnString)
    else if t.FixedString? then Success(ColumnFixedString(t.n))
    else if t.Date? then Success(ColumnVector(UInt16))
    else if t.DateTime? then Success(ColumnVector(UInt32))
    else if IsNumber(t) then
      if t.Number? then Success(ColumnVector(t.kind)) else Failure(UnexpectedNumericType)
    else Failure(UnexpectedDictionaryType)
  }

  /** Every key type the dispatch serves was accepted at construction; the only accepted
      types it refuses are the numeric ones outside the number type list. */
  lemma DispatchServesConstructedTypes(t: DataType)
    ensures CreateColumnUniqueImpl(t).Success? ==> NewDataTypeWithDictionary(t).Success?
    ensures NewDataTypeWithDictionary(t).Success? && CreateColumnUniqueImpl(t).Failure? ==>
              RemoveNullable(t).OtherNumber?
  {
  }

  /** Nullable is transparent to the dispatch, but only one layer of it is stripped. */
  lemma DispatchIgnoresNullable(t: DataType)
    ensures !t.Nullable? ==> CreateColumnUniqueImpl(Nullable(t)) == CreateColumnUniqueImpl(t)
    ensures t.Nullable? ==> CreateColumnUniqueImpl(Nullable(t)) == Failure(UnexpectedDictionaryType)
  {
  }
}
