/** The rate-limit middleware of backend/dist/app.js: a fixed one-minute window per client
    address, at most 100 requests in each, kept in a `Map` from client to its window. */
module RateLimit {
  import opened Metrics

  /** One minute in milliseconds. */
  const RateLimitWindow := 60 * 1000
  const RateLimitMax := 100
  const Exceeded := "rate_limit_exceeded"
  const TooManyRequests := "Muitas requisições. Tente novamente em 1 minuto."

  /** A client's window: requests let through so far and the instant the window closes. */
  datatype ClientLimit = ClientLimit(count: int, resetTime: int)

  /** Every stored window has let through between 1 and `RateLimitMax` requests. */
  ghost predicate WithinBounds(limits: map<string, ClientLimit>) {
    forall c :: c in limits ==> 1 <= limits[c].count <= RateLimitMax
  }

  /** The table after one request, and whether the request went on to the next handler. */
  datatype Decision = Decision(limits: map<string, ClientLimit>, allowed: bool)

  /** One request from `clientId` at clock reading `now`. */
  function Step(limits: map<string, ClientLimit>, clientId: string, now: int): (d: Decision)
    ensures clientId in d.limits
    ensures forall other :: other != clientId ==>
              (other in d.limits <==> other in limits) && (other in limits ==> d.limits[other] == limits[other])
  {
    if clientId !in limits || now > limits[clientId].resetTime then
      Decision(limits[clientId := ClientLimit(1, now + RateLimitWindow)], true)
    else if limits[clientId].count < RateLimitMax then
      Decision(limits[clientId := limits[clientId].(count := limits[clientId].count + 1)], true)
    else
      Decision(limits, false)
  }

  /** A new client, or one whose window has closed, opens a fresh window and is let through;
      inside an open window the request is let through iff fewer than the maximum went
      before, and a rejected request leaves the table as it was. The instant `resetTime`
      itself still belongs to the window. */
  lemma StepCases(limits: map<string, ClientLimit>, clientId: string, now: int)
    ensures clientId !in limits || now > limits[clientId].resetTime ==>
              Step(limits, clientId, now).allowed
              && Step(limits, clientId, now).limits[clientId] == ClientLimit(1, now + RateLimitWindow)
    ensures clientId in limits && now <= limits[clientId].resetTime ==>
              && (Step(limits, clientId, now).allowed <==> limits[clientId].count < RateLimitMax)
              && (Step(limits, clientId, now).allowed ==>
                    Step(limits, clientId, now).limits[clientId]
                    == ClientLimit(limits[clientId].count + 1, limits[clientId].resetTime))
              && (!Step(limits, clientId, now).allowed ==> Step(limits, clientId, now).limits == limits)
  {
  }

  /** The bounds hold after every request. */
  lemma StepWithinBounds(limits: map<string, ClientLimit>, clientId: string, now: int)
    requires WithinBounds(limits)
    ensures WithinBounds(Step(limits, clientId, now).limits)
  {
  }

  /** A run of requests from one client: the final table and how many went through. */
  datatype RunResult = RunResult(limits: map<string, ClientLimit>, allowed: nat)

  function Run(limits: map<string, ClientLimit>, clientId: string, times: seq<int>): (r: RunResult)
    ensures r.allowed <= |times|
  {
    if times == [] then RunResult(limits, 0)
    else
      var before := Run(limits, clientId, times[..|times| - 1]);
      var d := Step(before.limits, clientId, times[|times| - 1]);
      RunResult(d.limits, before.allowed + if d.allowed then 1 else 0)
  }

  function Min(a: int, b: int): int {
    if a <= b then a else b
  }

  /** Inside one open window, requests go through until the window holds the maximum and
      are refused from then on; the window's closing instant does not move. */
  lemma {:induction false} WindowAllowance(limits: map<string, ClientLimit>, clientId: string, times: seq<int>)
    requires clientId in limits && limits[clientId].count <= RateLimitMax
    requires forall i :: 0 <= i < |times| ==> times[i] <= limits[clientId].resetTime
    ensures Run(limits, clientId, times).allowed == Min(|times|, RateLimitMax - limits[clientId].count)
    ensures clientId in Run(limits, clientId, times).limits
    ensures Run(limits, clientId, times).limits[clientId]
            == ClientLimit(limits[clientId].count + Run(limits, clientId, times).allowed, limits[clientId].resetTime)
  {
    if times != [] {
      var init := times[..|times| - 1];
      forall i | 0 <= i < |init| ensures init[i] <= limits[clientId].resetTime {
        assert init[i] == times[i];
      }
      WindowAllowance(limits, clientId, init);
    }
  }

  /** A request that opens a window, followed by any number of requests before it closes:
      at most `RateLimitMax` of them go through, and exactly that many when enough come. */
  lemma AtMostMaxPerWindow(limits: map<string, ClientLimit>, clientId: string, opening: int, times: seq<int>)
    requires clientId !in limits || opening > limits[clientId].resetTime
    requires forall i :: 0 <= i < |times| ==> times[i] <= opening + RateLimitWindow
    ensures Step(limits, clientId, opening).allowed
    ensures 1 + Run(Step(limits, clientId, opening).limits, clientId, times).allowed == Min(|times| + 1, RateLimitMax)
  {
    WindowAllowance(Step(limits, clientId, opening).limits, clientId, times);
  }

  /** Other clients' requests do not affect a client: what happens to its requests depends
      only on its own window. */
  lemma {:induction false} RunDependsOnOwnWindow(l1: map<string, ClientLimit>, l2: map<string, ClientLimit>,
                                                clientId: string, times: seq<int>)
    requires clientId in l1 <==> clientId in l2
    requires clientId in l1 ==> l1[clientId] == l2[clientId]
    ensures Run(l1, clientId, times).allowed == Run(l2, clientId, times).allowed
    ensures clientId in Run(l1, clientId, times).limits <==> clientId in Run(l2, clientId, times).limits
    ensures clientId in Run(l1, clientId, times).limits ==>
              Run(l1, clientId, times).limits[clientId] == Run(l2, clientId, times).limits[clientId]
  {
    if times != [] {
      RunDependsOnOwnWindow(l1, l2, clientId, times[..|times| - 1]);
    }
  }

  /** ... and a client's requests leave every other client's window as it was. */
  lemma {:induction false} RunLeavesOthers(limits: map<string, ClientLimit>, clientId: string, times: seq<int>, other: string)
    requires other != clientId
    ensures other in Run(limits, clientId, times).limits <==> other in limits
    ensures other in limits ==> Run(limits, clientId, times).limits[other] == limits[other]
  {
    if times != [] {
      RunLeavesOthers(limits, clientId, times[..|times| - 1], other);
    }
  }

  /** What the middleware does with the request. */
  datatype Verdict = Next | Reply(status: int, error: string)

  class RateLimiter {
    var rateLimit: map<string, ClientLimit>

    ghost predicate Valid()
      reads this
    {
      WithinBounds(rateLimit)
    }

    constructor()
      ensures Valid()
      ensures rateLimit == map[]
    {
      rateLimit := map[];
    }

    /** The middleware for a request from `clientId` at clock reading `now`. */
    method Handle(metrics: MetricsCollector, clientId: string, now: int) returns (verdict: Verdict)
      requires Valid() && metrics.Valid()
      modifies this, metrics
      ensures Valid() && metrics.Valid()
      ensures Decision(rateLimit, verdict.Next?) == Step(old(rateLimit), clientId, now)
      ensures verdict.Reply? ==> verdict == Reply(429, TooManyRequests)
      ensures verdict.Next? ==> metrics.counters == old(metrics.counters)
      ensures verdict.Reply? ==> metrics.counters == Incremented(old(metrics.counters), Exceeded, 1)
      ensures metrics.gauges == old(metrics.gauges)
    {
      StepWithinBounds(rateLimit, clientId, now);
      if clientId !in rateLimit || now > rateLimit[clientId].resetTime {
        rateLimit := rateLimit[clientId := ClientLimit(1, now + RateLimitWindow)];
        verdict := Next;
      } else if rateLimit[clientId].count < RateLimitMax {
        var clientLimit := rateLimit[clientId];
        rateLimit := rateLimit[clientId := clientLimit.(count := clientLimit.count + 1)];
        verdict := Next;
      } else {
        metrics.IncrementCounter(Exceeded, 1);
        verdict := Reply(429, TooManyRequests);
      }
    }
  }
}
