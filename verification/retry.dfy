/**
 * The `with_retry(max_retries, delay)` decorator: call the wrapped function
 * up to `max_retries` times, return the first success, pause between
 * attempts, and re-raise the last exception once every attempt failed.
 *
 * The wrapped call is an oracle `call(a)`: the outcome of attempt `a`.
 * Sleeping is recorded as the list of pauses, in seconds, instead of done.
 */
module Retry {
  import opened Wrappers

  /** What `raise last_exc` raises when no attempt was made: `raise None`. */
  const NoAttemptMessage := "exceptions must derive from BaseException"

  /** The number of attempts `range(max_retries)` allows. */
  function Attempts(maxRetries: int): nat {
    if maxRetries < 0 then 0 else maxRetries
  }

  /** `with_retry(max_retries, delay)(func)()`. */
  method WithRetry<T(==)>(maxRetries: int, delay: real, call: nat -> Result<T, string>)
    returns (r: Result<T, string>, calls: nat, pauses: seq<real>)
    ensures calls <= Attempts(maxRetries)
    ensures forall a :: 0 <= a < calls - 1 ==> call(a).Err?
    ensures r.Ok? <==> exists a :: 0 <= a < Attempts(maxRetries) && call(a).Ok?
    ensures r.Ok? ==> calls >= 1 && r == call(calls - 1)
    ensures r.Err? ==> calls == Attempts(maxRetries)
    ensures r.Err? && calls > 0 ==> r == call(calls - 1)
    ensures r.Err? && calls == 0 ==> r == Err(NoAttemptMessage)
    ensures |pauses| == if calls == 0 then 0 else calls - 1
    ensures forall a :: 0 <= a < |pauses| ==> pauses[a] == delay * (a + 1) as real
  {
    var last: Option<string> := None;
    pauses := [];
    var attempt := 0;
    while attempt < maxRetries
      invariant 0 <= attempt <= Attempts(maxRetries)
      invariant forall a :: 0 <= a < attempt ==> call(a).Err?
      invariant last.None? <==> attempt == 0
      invariant last.Some? ==> last.value == call(attempt - 1).error
      invariant attempt == Attempts(maxRetries) && attempt > 0 ==> |pauses| == attempt - 1
      invariant attempt < Attempts(maxRetries) || attempt == 0 ==> |pauses| == attempt
      invariant forall a :: 0 <= a < |pauses| ==> pauses[a] == delay * (a + 1) as real
    {
      var outcome := call(attempt);
      if outcome.Ok? {
        return outcome, attempt + 1, pauses;
      }
      last := Some(outcome.error);
      if attempt < maxRetries - 1 {
        pauses := pauses + [delay * (attempt + 1) as real];
      }
      attempt := attempt + 1;
    }
    if last.None? {
      return Err(NoAttemptMessage), 0, pauses;
    }
    return Err(last.value), attempt, pauses;
  }
}
