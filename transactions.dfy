/** The `withTx` helper that both stores use: begin a transaction, run the
    body, roll back on any error and commit otherwise. */
module Transactions {
  import opened Wrappers

  /** Why a `withTx` call returned an error. */
  datatype TxError<+E> = BeginFailed | Aborted(cause: E) | CommitFailed

  /** The verdict of a transaction together with the state it leaves. */
  datatype TxRun<S, +E> = TxRun(outcome: Outcome<TxError<E>>, after: S)

  /** A transaction over state `before`. `begins` and `commits` say whether
      the database accepts BEGIN and COMMIT; `body` is what the callback
      computes on the transaction's working copy. The new state becomes
      visible only when everything succeeds; any error rolls back. */
  function RunTx<S, E>(before: S, begins: bool, body: Result<S, E>, commits: bool): (r: TxRun<S, E>)
    ensures r.outcome.Pass? <==> begins && body.Success? && commits
    ensures r.outcome.Pass? ==> r.after == body.value
    ensures r.outcome.Fail? ==> r.after == before
    ensures begins && body.Failure? ==> r.outcome == Fail(Aborted(body.error))
  {
    if !begins then TxRun(Fail(BeginFailed), before)
    else if body.Failure? then TxRun(Fail(Aborted(body.error)), before)
    else if !commits then TxRun(Fail(CommitFailed), before)
    else TxRun(Pass, body.value)
  }
}
