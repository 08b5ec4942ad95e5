/** The booking request limiter: a wrapper that spends one point of an injected
    rate limiter per request and passes the limiter's refusal on unchanged, so
    that the circuit breaker around it sees the refusal as a failure. */
module RequestLimiter {
  import opened Values

  /** What `consume` of the rate-limiter library answers: it resolves with a
      result, or it rejects with a result object, which is not an `Error`. */
  datatype ConsumeOutcome = Consumed(res: LimiterRes) | Refused(res: LimiterRes)

  /** Stand-in for the library's in-memory limiter. Its bucket, window and
      clock are not part of this model: the answer it gives is a fixed
      function `answer` of the costs of all earlier calls and of this call's
      cost, and `calls` records every call in order. */
  class RateLimiter {
    var calls: seq<nat>
    const answer: (seq<nat>, nat) -> ConsumeOutcome

    constructor (answer: (seq<nat>, nat) -> ConsumeOutcome)
      ensures calls == [] && this.answer == answer
    {
      calls := [];
      this.answer := answer;
    }

    method Consume(points: nat) returns (o: ConsumeOutcome)
      modifies this
      ensures calls == old(calls) + [points]
      ensures o == answer(old(calls), points)
    {
      o := answer(calls, points);
      calls := calls + [points];
    }
  }

  /** How the promise of `bookingRequestLimiter` settles once `consume` has
      answered: a consumed point only gets logged and the wrapper resolves
      with no value; a refusal is rethrown as the very same value, so it is
      still not an `Error` when the dispatcher inspects it. */
  function Settle(o: ConsumeOutcome): (s: Settlement)
    ensures s.Fulfilled? <==> o.Consumed?
    ensures s.Rejected? ==> s.reason == NonError(o.res) && !s.reason.IsError()
  {
    match o
    case Consumed(_) => Fulfilled
    case Refused(res) => Rejected(NonError(res))
  }

  /** `bookingRequestLimiter(requestLimiter)`: exactly one `consume(1)` on the
      injected limiter, which is the only state it touches. */
  method BookingRequestLimiter(limiter: RateLimiter) returns (s: Settlement)
    modifies limiter
    ensures limiter.calls == old(limiter.calls) + [1]
    ensures s == Settle(limiter.answer(old(limiter.calls), 1))
  {
    var o := limiter.Consume(1);
    s := Settle(o);
  }
}
