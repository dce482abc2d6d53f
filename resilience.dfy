/** The resilience code that ClearbitProvider.ts and HunterProvider.ts both carry: the
    retry interceptor of their HTTP client, and the circuit breaker over the two fields
    `failureCount` and `lastFailureTime`. The HTTP exchange is an oracle: `respond(k)` is
    what the k-th attempt (0 for the first request) receives. Clock readings are parameters. */
module Resilience {
  import opened Wrappers

  /** What one attempt receives: a 2xx response with its body, or an error carrying the
      response status when there was a response at all. */
  datatype HttpOutcome<B> = Ok(body: B) | Err(status: Option<int>)

  /** The interceptor's test on the response: `error.response?.status >= 500`. An error
      without a response (timeout, connection refused) is never retried. */
  predicate ServerError<B>(o: HttpOutcome<B>) {
    o.Err? && o.status.Some? && o.status.value >= 500
  }

  const MaxRetries := 3

  function Pow2(n: nat): (r: nat)
    ensures r >= 1
  {
    if n == 0 then 1 else 2 * Pow2(n - 1)
  }

  /** `Math.pow(2, retryCount) * 1000`, after the count has been incremented. */
  function RetryDelay(retryCount: nat): nat { Pow2(retryCount) * 1000 }

  /** How many retries the interceptor performs starting from retry count `k`: it goes on
      while the count is below 3 and the latest attempt failed with a status >= 500. */
  function RetriesFrom<B>(respond: nat -> HttpOutcome<B>, k: nat): (n: nat)
    requires k <= MaxRetries
    ensures k <= n <= MaxRetries
    ensures forall j :: k <= j < n ==> ServerError(respond(j))
    ensures n < MaxRetries ==> !ServerError(respond(n))
    decreases MaxRetries - k
  {
    if k < MaxRetries && ServerError(respond(k)) then RetriesFrom(respond, k + 1) else k
  }

  function Retries<B>(respond: nat -> HttpOutcome<B>): nat { RetriesFrom(respond, 0) }

  /** The request as the caller sees it after the interceptor: the final outcome, which is
      the one of attempt `Retries(respond)`. */
  function FinalOutcome<B>(respond: nat -> HttpOutcome<B>): HttpOutcome<B> { respond(Retries(respond)) }

  /** The retry interceptor: re-issues the request while the error has status >= 500 and
      `__retryCount < 3`, incrementing the count first and waiting `2^count * 1000` ms.
      Returns the final outcome and the waits performed. */
  method RequestWithRetry<B>(respond: nat -> HttpOutcome<B>) returns (outcome: HttpOutcome<B>, delays: seq<nat>)
    ensures |delays| <= MaxRetries
    ensures outcome == respond(|delays|)
    ensures forall k :: 0 <= k < |delays| ==> ServerError(respond(k)) && delays[k] == RetryDelay(k + 1)
    ensures !ServerError(outcome) || |delays| == MaxRetries
    ensures |delays| == Retries(respond)
  {
    var retryCount := 0;
    delays := [];
    outcome := respond(0);
    while retryCount < MaxRetries && ServerError(outcome)
      invariant 0 <= retryCount <= MaxRetries
      invariant retryCount == |delays|
      invariant outcome == respond(retryCount)
      invariant forall k :: 0 <= k < retryCount ==> ServerError(respond(k)) && delays[k] == RetryDelay(k + 1)
      invariant RetriesFrom(respond, retryCount) == Retries(respond)
    {
      retryCount := retryCount + 1;
      delays := delays + [RetryDelay(retryCount)];
      outcome := respond(retryCount);
    }
  }

  function Sum(s: seq<nat>): nat {
    if s == [] then 0 else Sum(s[..|s| - 1]) + s[|s| - 1]
  }

  /** The retry waits are 2000, 4000 and 8000 ms, so a request waits at most 14000 ms in
      total and is attempted at most four times. */
  lemma {:induction false} RetryWaitBound(delays: seq<nat>)
    requires |delays| <= MaxRetries
    requires forall k :: 0 <= k < |delays| ==> delays[k] == RetryDelay(k + 1)
    ensures Sum(delays) <= 14000
    ensures |delays| == MaxRetries ==> Sum(delays) == 14000
  {
    if |delays| > 0 {
      RetryWaitBound(delays[..|delays| - 1]);
      assert RetryDelay(1) == 2000 && RetryDelay(2) == 4000 && RetryDelay(3) == 8000;
      if |delays| == 3 {
        assert Sum(delays) == Sum(delays[..2]) + 8000;
        assert delays[..2][..1] == delays[..1];
        assert Sum(delays[..2]) == Sum(delays[..1]) + 4000;
        assert Sum(delays[..1]) == Sum([]) + 2000;
      } else if |delays| == 2 {
        assert Sum(delays) == Sum(delays[..1]) + 4000;
        assert Sum(delays[..1]) == Sum([]) + 2000;
      }
    }
  }

  // ------------------------------------------------------------ circuit breaker

  const MaxFailures := 5
  const BreakerTimeout := 60000

  /** The breaker's two fields as a value. */
  datatype BreakerState = BreakerState(failureCount: nat, lastFailureTime: int)

  /** The answer of `isCircuitBreakerOpen()` at time `now`. */
  predicate OpenAt(b: BreakerState, now: int) {
    b.failureCount >= MaxFailures && now - b.lastFailureTime <= BreakerTimeout
  }

  /** The state `isCircuitBreakerOpen()` leaves: the count is reset once the timeout has passed. */
  function AfterCheck(b: BreakerState, now: int): BreakerState {
    if b.failureCount >= MaxFailures && now - b.lastFailureTime > BreakerTimeout then b.(failureCount := 0) else b
  }

  function AfterSuccess(b: BreakerState): BreakerState { b.(failureCount := 0) }

  function AfterFailure(b: BreakerState, now: int): BreakerState { BreakerState(b.failureCount + 1, now) }

  /** The state after a run of failures at the given times. */
  function AfterFailures(b: BreakerState, times: seq<int>): BreakerState {
    if times == [] then b else AfterFailure(AfterFailures(b, times[..|times| - 1]), times[|times| - 1])
  }

  /** A run of failures adds its length to the count and stamps the last failure time. */
  lemma {:induction false} AfterFailuresCount(b: BreakerState, times: seq<int>)
    ensures AfterFailures(b, times).failureCount == b.failureCount + |times|
    ensures times != [] ==> AfterFailures(b, times).lastFailureTime == times[|times| - 1]
  {
    if times != [] {
      AfterFailuresCount(b, times[..|times| - 1]);
    }
  }

  /** Five failures in a row open the circuit, from any state, for exactly the 60000 ms that
      follow the last of them; a success at any point closes it again. */
  lemma FiveFailuresOpen(b: BreakerState, times: seq<int>, now: int)
    requires |times| >= MaxFailures
    ensures OpenAt(AfterFailures(b, times), now) <==> now - times[|times| - 1] <= BreakerTimeout
    ensures !OpenAt(AfterSuccess(AfterFailures(b, times)), now)
  {
    AfterFailuresCount(b, times);
  }

  /** Fewer than five failures after a success never open the circuit. */
  lemma FewFailuresClosed(b: BreakerState, times: seq<int>, now: int)
    requires |times| < MaxFailures
    ensures !OpenAt(AfterFailures(AfterSuccess(b), times), now)
  {
    AfterFailuresCount(AfterSuccess(b), times);
  }

  /** The breaker fields of one provider instance. */
  class CircuitBreaker {
    var failureCount: nat
    var lastFailureTime: int

    function State(): BreakerState
      reads this
    {
      BreakerState(failureCount, lastFailureTime)
    }

    constructor()
      ensures State() == BreakerState(0, 0)
    {
      failureCount := 0;
      lastFailureTime := 0;
    }

    /** `isCircuitBreakerOpen`: closed below five failures; otherwise open iff at most
        60000 ms have passed since the last failure, the count being reset when more have. */
    method IsOpen(now: int) returns (open: bool)
      modifies this
      ensures open == OpenAt(old(State()), now)
      ensures State() == AfterCheck(old(State()), now)
      ensures old(failureCount) < MaxFailures ==> !open && State() == old(State())
      ensures open ==> State() == old(State())
    {
      if failureCount < MaxFailures {
        return false;
      }
      var timeSinceLastFailure := now - lastFailureTime;
      if timeSinceLastFailure > BreakerTimeout {
        failureCount := 0;
        return false;
      }
      return true;
    }

    /** `onSuccess`. */
    method OnSuccess()
      modifies this
      ensures State() == AfterSuccess(old(State()))
      ensures failureCount == 0 && lastFailureTime == old(lastFailureTime)
    {
      failureCount := 0;
    }

    /** `onFailure`: one more failure, stamped with the clock reading `now`. */
    method OnFailure(now: int)
      modifies this
      ensures State() == AfterFailure(old(State()), now)
      ensures failureCount == old(failureCount) + 1 && lastFailureTime == now
    {
      failureCount := failureCount + 1;
      lastFailureTime := now;
    }
  }
}
