/** call_tool_with_retry: one call, then up to `retries` more after failures,
    sleeping `backoff_seconds * 2^(k-1)` before retry k. The remote call is
    an oracle: `outcomes[k]` is what attempt k (from 0) returns or raises. */
module Retry {
  import opened Wrappers

  /** What one remote call does. */
  datatype Outcome<+T, +E> = Returned(value: T) | Raised(error: E)

  /** The RuntimeError raised after the last retry, chained from the last
      exception (None when no call was made). */
  datatype ToolError<+E> = ToolError(tool: string, retries: int, cause: Option<E>)

  datatype RetryResult<+T, +E> = Done(value: T) | Failed(error: ToolError<E>)

  function Pow2(k: nat): nat {
    if k == 0 then 1 else 2 * Pow2(k - 1)
  }

  function Sum(s: seq<nat>): nat {
    if s == [] then 0 else Sum(s[..|s| - 1]) + s[|s| - 1]
  }

  /** The result of attempts `from`..`last` when the attempts before `from`
      all failed, the latest with `lastError`. */
  function Attempts<T, E>(tool: string, outcomes: seq<Outcome<T, E>>, from: nat, last: int, lastError: Option<E>): RetryResult<T, E>
    requires last < |outcomes|
    decreases |outcomes| - from
  {
    if from > last then Failed(ToolError(tool, last, lastError))
    else
      match outcomes[from]
      case Returned(v) => Done(v)
      case Raised(e) => Attempts(tool, outcomes, from + 1, last, Some(e))
  }

  /** The result of call_tool_with_retry. */
  function RetryOutcome<T, E>(tool: string, outcomes: seq<Outcome<T, E>>, retries: int): RetryResult<T, E>
    requires retries < |outcomes|
  {
    Attempts(tool, outcomes, 0, retries, None)
  }

  /** call_tool_with_retry. `calls` is the number of calls made and `sleeps`
      the backoff multipliers slept, in units of backoff_seconds. */
  method CallWithRetry<T, E>(tool: string, outcomes: seq<Outcome<T, E>>, retries: int)
    returns (r: RetryResult<T, E>, ghost calls: nat, ghost sleeps: seq<nat>)
    requires retries < |outcomes|
    ensures r == RetryOutcome(tool, outcomes, retries)
    ensures calls <= if retries < 0 then 0 else retries + 1
    ensures forall j :: 0 <= j < calls - 1 ==> outcomes[j].Raised?
    ensures r.Done? <==> 0 < calls && outcomes[calls - 1].Returned?
    ensures r.Done? ==> r.value == outcomes[calls - 1].value
    ensures r.Failed? ==> calls == (if retries < 0 then 0 else retries + 1)
    ensures |sleeps| == if calls == 0 then 0 else calls - 1
    ensures forall k :: 0 <= k < |sleeps| ==> sleeps[k] == Pow2(k)
  {
    var attemptIndex := 0;
    var lastException: Option<E> := None;
    calls, sleeps := 0, [];
    while attemptIndex <= retries
      invariant attemptIndex <= (if retries < 0 then 0 else retries)
      invariant calls == attemptIndex && |sleeps| == attemptIndex
      invariant forall j :: 0 <= j < attemptIndex ==> outcomes[j].Raised?
      invariant lastException == if attemptIndex == 0 then None else Some(outcomes[attemptIndex - 1].error)
      invariant forall k :: 0 <= k < |sleeps| ==> sleeps[k] == Pow2(k)
      invariant RetryOutcome(tool, outcomes, retries) == Attempts(tool, outcomes, attemptIndex, retries, lastException)
    {
      calls := calls + 1;
      var outcome := outcomes[attemptIndex];
      if outcome.Returned? {
        r := Done(outcome.value);
        return;
      }
      lastException := Some(outcome.error);
      attemptIndex := attemptIndex + 1;
      if attemptIndex > retries {
        break;
      }
      sleeps := sleeps + [Pow2(attemptIndex - 1)];
    }
    r := Failed(ToolError(tool, retries, lastException));
  }

  // ---------------------------------------------------------------- properties

  lemma {:induction false} AttemptsFirstReturned<T, E>(tool: string, outcomes: seq<Outcome<T, E>>, from: nat, last: int, lastError: Option<E>, i: nat)
    requires last < |outcomes| && from <= i <= last && outcomes[i].Returned?
    requires forall j :: from <= j < i ==> outcomes[j].Raised?
    ensures Attempts(tool, outcomes, from, last, lastError) == Done(outcomes[i].value)
    decreases i - from
  {
    if from < i {
      AttemptsFirstReturned(tool, outcomes, from + 1, last, Some(outcomes[from].error), i);
    }
  }

  lemma {:induction false} AttemptsAllRaised<T, E>(tool: string, outcomes: seq<Outcome<T, E>>, from: nat, last: int, lastError: Option<E>)
    requires last < |outcomes|
    requires forall j :: from <= j <= last ==> outcomes[j].Raised?
    ensures Attempts(tool, outcomes, from, last, lastError)
      == Failed(ToolError(tool, last, if from > last then lastError else Some(outcomes[last].error)))
    decreases |outcomes| - from
  {
    if from <= last {
      AttemptsAllRaised(tool, outcomes, from + 1, last, Some(outcomes[from].error));
    }
  }

  /** The first call that succeeds, among the first retries + 1, gives the
      result. */
  lemma FirstSuccessWins<T, E>(tool: string, outcomes: seq<Outcome<T, E>>, retries: int, i: nat)
    requires retries < |outcomes| && i <= retries && outcomes[i].Returned?
    requires forall j :: 0 <= j < i ==> outcomes[j].Raised?
    ensures RetryOutcome(tool, outcomes, retries) == Done(outcomes[i].value)
  {
    AttemptsFirstReturned(tool, outcomes, 0, retries, None, i);
  }

  /** When all retries + 1 calls fail, the RuntimeError is chained from the
      last one; with negative retries no call is made and the error has no
      cause. */
  lemma AllFailuresGiveUp<T, E>(tool: string, outcomes: seq<Outcome<T, E>>, retries: int)
    requires retries < |outcomes|
    requires forall j :: 0 <= j <= retries ==> outcomes[j].Raised?
    ensures RetryOutcome(tool, outcomes, retries)
      == Failed(ToolError(tool, retries, if retries < 0 then None else Some(outcomes[retries].error)))
  {
    AttemptsAllRaised(tool, outcomes, 0, retries, None);
  }

  /** The sleeps 1, 2, 4, ... add up to 2^n - 1 backoff units. */
  lemma {:induction false} TotalBackoff(sleeps: seq<nat>)
    requires forall k :: 0 <= k < |sleeps| ==> sleeps[k] == Pow2(k)
    ensures Sum(sleeps) == Pow2(|sleeps|) - 1
  {
    if sleeps != [] {
      TotalBackoff(sleeps[..|sleeps| - 1]);
    }
  }
}
