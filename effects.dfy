/**
 * The pass-through effects of the dataset model: getDatasets, getDataset,
 * batchDatasets, getAssetsOfDataset, getAsset, delDataset, createDataset,
 * updateDataset and getInternalDataset. Each calls one backend operation and
 * hands back the `result` of a successful envelope without transforming it.
 */
module Effects {
  import opened Wrappers

  /**
   * What a backend call settles to: an envelope `{code, result}` (the result
   * may be missing) or a thrown error (transport failure).
   */
  datatype Envelope<T> = Reply(code: int, result: Option<T>) | Thrown

  /** The code of a successful envelope. */
  const SuccessCode: int := 0

  /**
   * The observable result of a pass-through effect: exactly `result` for a
   * success envelope, `undefined` (None) for a non-zero code or a thrown error.
   */
  function Settle<T>(e: Envelope<T>): (r: Option<T>)
    ensures r.Some? <==> e.Reply? && e.code == SuccessCode && e.result.Some?
    ensures r.Some? ==> r.value == e.result.value
  {
    match e
    case Reply(code, result) => if code == SuccessCode then result else None
    case Thrown => None
  }

  /** A success envelope `{code: 0, result: r}` yields exactly `r`. */
  lemma SuccessYieldsResult<T>(r: T)
    ensures Settle(Reply(SuccessCode, Some(r))) == Some(r)
  {
  }

  /** A non-zero code or a thrown error yields `undefined`, whatever the payload. */
  lemma FailureYieldsUndefined<T>(e: Envelope<T>)
    requires e.Thrown? || e.code != SuccessCode
    ensures Settle(e) == None
  {
  }
}
