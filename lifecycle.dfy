/** The request lifecycle every AI view repeats: a guard that refuses with a
    fixed message, then loading with error and result cleared, then either the
    result or a fixed error, with loading lowered either way. */
module Lifecycle {
  import opened Core

  /** The three state variables a view keeps for one request. */
  datatype ViewState<R> = ViewState(isLoading: bool, error: Option<string>, result: Option<R>)

  /** The state on mount: not loading, no error, no result. */
  function Idle<R>(): ViewState<R> {
    ViewState(false, None, None)
  }

  /** A refused request: the fixed message is set and nothing else changes. */
  function Refuse<R>(s: ViewState<R>, message: string): ViewState<R> {
    s.(error := Some(message))
  }

  /** An accepted request before its await. */
  function Begin<R>(s: ViewState<R>): ViewState<R> {
    ViewState(true, None, None)
  }

  /** The await settles: the result on success, the fixed error on failure,
      loading lowered in both cases. */
  function Settle<R>(s: ViewState<R>, outcome: Outcome<R>, failure: string): ViewState<R> {
    match outcome
    case Ok(value) => s.(isLoading := false, result := Some(value))
    case Err(_) => s.(isLoading := false, error := Some(failure))
  }

  /** An accepted request ends not loading, with exactly one of result and
      error: the value on success, the fixed message (never the service's
      own) on failure. */
  lemma RunEndsWithExactlyOne<R>(s: ViewState<R>, outcome: Outcome<R>, failure: string)
    ensures var t := Settle(Begin(s), outcome, failure);
      && !t.isLoading
      && (t.result.Some? <==> outcome.Ok?)
      && (t.error.Some? <==> outcome.Err?)
      && (outcome.Ok? ==> t.result == Some(outcome.value))
      && (outcome.Err? ==> t.error == Some(failure))
  {
  }

  /** What an accepted request ends with does not depend on what was shown
      before it. */
  lemma RunForgetsEarlierState<R>(s1: ViewState<R>, s2: ViewState<R>, outcome: Outcome<R>, failure: string)
    ensures Settle(Begin(s1), outcome, failure) == Settle(Begin(s2), outcome, failure)
  {
  }

  /** A refusal after a success keeps the earlier result on screen beside the
      refusal message. */
  lemma RefusalKeepsEarlierResult<R>(s: ViewState<R>, value: R, failure: string, message: string)
    ensures Refuse(Settle(Begin(s), Ok(value), failure), message) == ViewState(false, Some(message), Some(value))
  {
  }

  /** While loading, neither an error nor a result is shown. */
  predicate Quiet<R>(s: ViewState<R>) {
    s.isLoading ==> s.error == None && s.result == None
  }

  /** Every step keeps a quiet state quiet, a refusal as long as it does not
      arrive while loading. */
  lemma QuietPreserved<R>(s: ViewState<R>, outcome: Outcome<R>, failure: string, message: string)
    requires Quiet(s)
    ensures Quiet(Begin(s)) && Quiet(Settle(s, outcome, failure))
    ensures !s.isLoading ==> Quiet(Refuse(s, message))
  {
  }
}
