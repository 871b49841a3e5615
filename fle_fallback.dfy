/** `findAndModifyWithFLEFallback`: write one document with a single
    find-and-modify call and, when the server refuses that command for a
    sharded or queryable-encryption collection, fall back to a plain write
    followed by a find by `_id`. The driver calls are inputs; the decision
    and the calls it makes are the model. */
module FleFallback {
  import opened Base
  import opened DocumentList

  datatype ModificationType = Update | Replace

  datatype DriverCall = FindOneAndUpdate | FindOneAndReplace | UpdateOne | ReplaceOne | FindById

  /** How each driver call would settle if it were made. `findOneAndModify`
      resolves with the document after the write, or with nothing when no
      document matched. */
  datatype DriverOutcomes = DriverOutcomes(
    findOneAndModify: Outcome<Option<Doc>>,
    modifyOne: Outcome<()>,
    findById: Outcome<seq<Doc>>)

  /** The `[error, result]` pair: an error, or a result that may be absent. */
  datatype ErrorOrResult = ErrorResult(error: Error) | DocResult(doc: Option<Doc>)

  /** The driver calls made, in order, and what the function returns. */
  datatype FallbackRun = FallbackRun(calls: seq<DriverCall>, outcome: ErrorOrResult)

  /** Server error code 6371402: "findAndModify with encryption only
      supports new: false". */
  const FLE_FIND_AND_MODIFY_CODE: int := 6371402

  /** The errors that trigger the fallback. A missing code counts as 0. */
  predicate IsFallbackError(e: Error) {
    e.codeName == Some("ShardKeyNotFound") || e.code.GetOr(0) == FLE_FIND_AND_MODIFY_CODE
  }

  function FindOneAndModifyCall(kind: ModificationType): DriverCall {
    if kind == Update then FindOneAndUpdate else FindOneAndReplace
  }

  function ModifyOneCall(kind: ModificationType): DriverCall {
    if kind == Update then UpdateOne else ReplaceOne
  }

  /** The fallback is attempted exactly when the find-and-modify call failed
      with a fallback error. */
  predicate FallbackAttempted(o: DriverOutcomes) {
    o.findOneAndModify.Fail? && IsFallbackError(o.findOneAndModify.error)
  }

  function FindAndModifyWithFleFallback(kind: ModificationType, o: DriverOutcomes): (run: FallbackRun)
    // the first call is always the find-and-modify of the right kind
    ensures |run.calls| >= 1 && run.calls[0] == FindOneAndModifyCall(kind)
    // the plain write is attempted only after a fallback error
    ensures |run.calls| > 1 <==> FallbackAttempted(o)
    ensures |run.calls| > 1 ==> run.calls[1] == ModifyOneCall(kind)
    // the find by _id runs only after a successful plain write
    ensures run.calls == [FindOneAndModifyCall(kind), ModifyOneCall(kind), FindById] <==>
      FallbackAttempted(o) && o.modifyOne.Ok?
    ensures FindById in run.calls <==> FallbackAttempted(o) && o.modifyOne.Ok?
    // a failed plain write ends the run
    ensures FallbackAttempted(o) && o.modifyOne.Fail? ==>
      run.calls == [FindOneAndModifyCall(kind), ModifyOneCall(kind)]
    // a successful find-and-modify is returned as is
    ensures o.findOneAndModify.Ok? ==> run.outcome == DocResult(o.findOneAndModify.value)
    // a failed plain write returns the plain write's error
    ensures FallbackAttempted(o) && o.modifyOne.Fail? ==> run.outcome == ErrorResult(o.modifyOne.error)
    // a successful fallback returns the first document the find returned
    ensures FallbackAttempted(o) && o.modifyOne.Ok? && o.findById.Ok? ==>
      run.outcome == DocResult(if |o.findById.value| > 0 then Some(o.findById.value[0]) else None)
    // every other failure returns the original error
    ensures (o.findOneAndModify.Fail? && !(FallbackAttempted(o) && o.modifyOne.Fail?) &&
             !(FallbackAttempted(o) && o.findById.Ok?)) ==>
      run.outcome == ErrorResult(o.findOneAndModify.error)
  {
    match o.findOneAndModify
    case Ok(d) => FallbackRun([FindOneAndModifyCall(kind)], DocResult(d))
    case Fail(error) =>
      if IsFallbackError(error) then
        match o.modifyOne
        case Fail(e) => FallbackRun([FindOneAndModifyCall(kind), ModifyOneCall(kind)], ErrorResult(e))
        case Ok(_) =>
          var calls := [FindOneAndModifyCall(kind), ModifyOneCall(kind), FindById];
          match o.findById
          case Ok(docs) => FallbackRun(calls, DocResult(if |docs| > 0 then Some(docs[0]) else None))
          case Fail(_) => FallbackRun(calls, ErrorResult(error))
      else FallbackRun([FindOneAndModifyCall(kind)], ErrorResult(error))
  }

  /** The result is never both an error and a document, and it comes back
      without a document only when no document matched: the find-and-modify
      resolved with nothing, or the fallback's find returned no document. */
  lemma AbsentResultMeansNoMatch(kind: ModificationType, o: DriverOutcomes)
    ensures FindAndModifyWithFleFallback(kind, o).outcome == DocResult(None) <==>
      o.findOneAndModify == Ok(None) ||
      (FallbackAttempted(o) && o.modifyOne.Ok? && o.findById == Ok([]))
  {
  }

  /** The error returned is one the driver raised: the find-and-modify's or,
      after a fallback error, the plain write's. */
  lemma ErrorComesFromDriver(kind: ModificationType, o: DriverOutcomes)
    ensures var out := FindAndModifyWithFleFallback(kind, o).outcome;
      out.ErrorResult? ==>
        (o.findOneAndModify.Fail? && out.error == o.findOneAndModify.error) ||
        (FallbackAttempted(o) && o.modifyOne.Fail? && out.error == o.modifyOne.error)
  {
  }
}
