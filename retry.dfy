/** fetchWithRetries: up to `maxRetries` GET attempts against a transport,
    returning the first response and rethrowing the error of the last attempt.
    The transport is scripted: attempt i yields `transport(i)`. */
module Retry {

  /** What one attempt yields: a response, or the error the transport throws.
      Any error counts as a failed attempt, whatever its kind or HTTP status. */
  datatype Attempt<R, E> = Success(response: R) | Failure(error: E)

  /** How a call ends. With no attempt at all the loop falls through and the
      async function resolves to `undefined`. */
  datatype Completion<R, E> = Returned(response: R) | Threw(error: E) | ReturnedUndefined

  /** The default number of attempts; every caller in the program uses it. */
  const DEFAULT_MAX_RETRIES: int := 5

  /** The index of the first successful attempt among the first n, or n when
      all n attempts fail. */
  function FirstSuccess<R, E>(transport: nat -> Attempt<R, E>, n: nat): (k: nat)
    ensures k <= n
    ensures forall j :: 0 <= j < k ==> transport(j).Failure?
    ensures k < n ==> transport(k).Success?
  {
    if n == 0 then 0
    else
      var k := FirstSuccess(transport, n - 1);
      if k < n - 1 || transport(n - 1).Success? then k else n
  }

  /** What a call with this transport and bound resolves to or throws. */
  function Retried<R, E>(transport: nat -> Attempt<R, E>, maxRetries: int): Completion<R, E> {
    if maxRetries <= 0 then ReturnedUndefined
    else
      var k := FirstSuccess(transport, maxRetries);
      if k < maxRetries then Returned(transport(k).response)
      else Threw(transport(maxRetries - 1).error)
  }

  /** How many attempts a call with this transport and bound makes. */
  function AttemptsMade<R, E>(transport: nat -> Attempt<R, E>, maxRetries: int): nat {
    if maxRetries <= 0 then 0
    else
      var k := FirstSuccess(transport, maxRetries);
      if k < maxRetries then k + 1 else maxRetries
  }

  /** The retry loop. `attempts` is the number of transport calls made. */
  method FetchWithRetries<R, E>(transport: nat -> Attempt<R, E>, maxRetries: int)
    returns (result: Completion<R, E>, attempts: nat)
    ensures result == Retried(transport, maxRetries)
    ensures attempts == AttemptsMade(transport, maxRetries)
  {
    var i := 0;
    while i < maxRetries
      invariant 0 <= i
      invariant 0 < maxRetries ==> i < maxRetries
      invariant forall j :: 0 <= j < i ==> transport(j).Failure?
      decreases maxRetries - i
    {
      var attempt := transport(i);
      if attempt.Success? {
        return Returned(attempt.response), i + 1;
      }
      if i == maxRetries - 1 {
        return Threw(attempt.error), i + 1;
      }
      i := i + 1;
    }
    return ReturnedUndefined, 0;
  }

  /** An attempt that succeeds after only failures ends the call with its
      response; no later attempt is made. */
  lemma RetryReturnsFirstSuccess<R, E>(transport: nat -> Attempt<R, E>, maxRetries: int, k: nat)
    requires k < maxRetries
    requires transport(k).Success?
    requires forall j :: 0 <= j < k ==> transport(j).Failure?
    ensures Retried(transport, maxRetries) == Returned(transport(k).response)
    ensures AttemptsMade(transport, maxRetries) == k + 1
  {
  }

  /** When every one of the attempts fails, the call makes all of them and
      throws the error of the last one. */
  lemma RetryRethrowsLastError<R, E>(transport: nat -> Attempt<R, E>, maxRetries: int)
    requires 0 < maxRetries
    requires forall j :: 0 <= j < maxRetries ==> transport(j).Failure?
    ensures Retried(transport, maxRetries) == Threw(transport(maxRetries - 1).error)
    ensures AttemptsMade(transport, maxRetries) == maxRetries
  {
  }

  /** A non-positive bound makes no attempt and resolves to `undefined`; a
      positive one never does. */
  lemma RetryUndefinedIffNoAttempt<R, E>(transport: nat -> Attempt<R, E>, maxRetries: int)
    ensures Retried(transport, maxRetries) == ReturnedUndefined <==> maxRetries <= 0
    ensures AttemptsMade(transport, maxRetries) == 0 <==> maxRetries <= 0
  {
  }

  /** At most `maxRetries` attempts are made, and the call ends with the
      outcome of the last one it made. */
  lemma RetryEndsWithLastAttempt<R, E>(transport: nat -> Attempt<R, E>, maxRetries: int)
    requires 0 < maxRetries
    ensures 1 <= AttemptsMade(transport, maxRetries) <= maxRetries
    ensures
      var last := transport(AttemptsMade(transport, maxRetries) - 1);
      Retried(transport, maxRetries) == (if last.Success? then Returned(last.response) else Threw(last.error))
  {
  }

  /** Only the attempts that are made matter: two transports that agree on
      them give the same call. */
  lemma RetryIgnoresLaterAttempts<R, E>(transport: nat -> Attempt<R, E>, other: nat -> Attempt<R, E>, maxRetries: int)
    requires forall j :: 0 <= j < AttemptsMade(transport, maxRetries) ==> other(j) == transport(j)
    ensures Retried(other, maxRetries) == Retried(transport, maxRetries)
    ensures AttemptsMade(other, maxRetries) == AttemptsMade(transport, maxRetries)
  {
  }
}
