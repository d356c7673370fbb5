/** The version word at the head of the keys substream. */
module KeysSerializationVersion {
  import opened Errors

  /** One global dictionary, plus additional keys per block: the only version there is. */
  const SingleDictionaryWithAdditionalKeysPerBlock: nat := 1

  /** Accepts exactly the one known version. */
  function CheckVersion(version: nat): (o: Outcome)
    ensures o.Pass? <==> version == SingleDictionaryWithAdditionalKeysPerBlock
    ensures o.Fail? ==> o.error == InvalidKeysVersion
  {
    if version != SingleDictionaryWithAdditionalKeysPerBlock then Fail(InvalidKeysVersion) else Pass
  }
}
