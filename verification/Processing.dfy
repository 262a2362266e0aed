/** Validate, deliver with bounded retries, aggregate (processing.py). */
module Processing {
  import opened Orders
  import opened Retry
  import Statistics
  import Aggregation

  /** What one call of the sink does: return, or raise. */
  datatype Response = Accept | Fail(error: Error)

  datatype Outcome = Outcome(order: Order, attempts: nat) {
    predicate WasRetried() { attempts > 1 }
  }

  /** What the sink has counted: all calls, and how they ended. */
  datatype Toll = Toll(calls: nat, delivered: nat, failures: nat, refused: nat)

  /** The downstream, with an arbitrary answer to each call it will ever get. */
  class Sink {
    const respond: nat -> Response
    var calls: nat
    var delivered: nat
    var failures: nat
    var refused: nat

    constructor (respond: nat -> Response)
      ensures this.respond == respond
      ensures calls == delivered == failures == refused == 0
    {
      this.respond := respond;
      calls, delivered, failures, refused := 0, 0, 0, 0;
    }

    function Count(): Toll
      reads this
    {
      Toll(calls, delivered, failures, refused)
    }

    method Call(order: Order) returns (r: Response)
      modifies this
      ensures r == respond(old(calls)) && calls == old(calls) + 1
      ensures delivered == old(delivered) + (if r.Accept? then 1 else 0)
      ensures failures == old(failures) + (if r == Fail(Transient) then 1 else 0)
      ensures refused == old(refused) + (if r.Fail? && r != Fail(Transient) then 1 else 0)
    {
      r := respond(calls);
      calls := calls + 1;
      if r == Fail(Transient) {
        failures := failures + 1;
      } else if r.Fail? {
        refused := refused + 1;
      } else {
        delivered := delivered + 1;
      }
    }
  }

  /** `FlakyDownstream`: each call fails transiently when its draw falls below the rate. */
  function FlakyResponses(rate: real, random: nat -> real): nat -> Response {
    (i: nat) => if random(i) < rate then Fail(Transient) else Accept
  }

  /** Every failure the sink ever raises is transient. */
  ghost predicate OnlyTransient(respond: nat -> Response) {
    forall i :: respond(i).Accept? || respond(i) == Fail(Transient)
  }

  /** The simulated downstream only ever fails transiently; with rate 0 it never does, with rate 1
      always (a draw is in [0, 1)). */
  lemma FlakyFailures(rate: real, random: nat -> real)
    requires forall i :: 0.0 <= random(i) < 1.0
    ensures OnlyTransient(FlakyResponses(rate, random))
    ensures forall i :: FlakyResponses(rate, random)(i) == Fail(Transient) <==> random(i) < rate
    ensures rate == 0.0 ==> forall i :: FlakyResponses(rate, random)(i) == Accept
    ensures rate == 1.0 ==> forall i :: FlakyResponses(rate, random)(i) == Fail(Transient)
  {
    forall i: nat ensures FlakyResponses(rate, random)(i) == if random(i) < rate then Fail(Transient) else Accept {}
  }

  lemma {:induction false} TryNeverRefused(max: nat, respond: nat -> Response, from: nat, attempt: nat)
    requires 1 <= attempt <= max && OnlyTransient(respond)
    ensures Try(max, respond, from, attempt).refused == 0
    decreases max - attempt
  {
    var r := respond(from + attempt - 1);
    if r == Fail(Transient) && attempt < max {
      TryNeverRefused(max, respond, from, attempt + 1);
    }
  }

  /** `random.uniform(-spread, spread)`, drawn for the `i`-th time. */
  ghost predicate Uniform(uniform: (nat, real) -> real) {
    forall i, spread :: 0.0 <= spread ==> -spread <= uniform(i, spread) <= spread
  }

  // ---- what one call decides ----

  /** The verdict of one `handle` call (on success, the attempts it took), and what it cost the
      sink: transient failures, and calls that ended in any other error. */
  datatype Trial = Trial(result: Result<nat>, failures: nat, refused: nat) {
    function Delivered(): nat { if result.Ok? then 1 else 0 }

    function Calls(): nat { failures + refused + Delivered() }

    /** Pauses, one between any two attempts. */
    function Pauses(): nat { if Calls() == 0 then 0 else Calls() - 1 }
  }

  /** A sink's count after one `handle` call. */
  function Charged(was: Toll, t: Trial): Toll {
    Toll(was.calls + t.Calls(), was.delivered + t.Delivered(), was.failures + t.failures, was.refused + t.refused)
  }

  function OutcomeOf(order: Order, t: Trial): Result<Outcome> {
    match t.result
    case Ok(n) => Ok(Outcome(order, n))
    case Raise(e) => Raise(e)
  }

  /** The attempt loop from `attempt` on; `from` is the sink's call count before the first attempt. */
  function Try(max: nat, respond: nat -> Response, from: nat, attempt: nat): Trial
    requires 1 <= attempt <= max
    decreases max - attempt
  {
    match respond(from + attempt - 1)
    case Accept => Trial(Ok(attempt), attempt - 1, 0)
    case Fail(e) =>
      if e != Transient then Trial(Raise(e), attempt - 1, 1)
      else if attempt < max then Try(max, respond, from, attempt + 1)
      else Trial(Raise(RetryExhausted(attempt)), attempt, 0)
  }

  function TrialOf(p: RetryPolicy, respond: nat -> Response, from: nat, order: Order): Trial
    requires 1 <= p.maxAttempts
  {
    match Validate(order)
    case Raise(e) => Trial(Raise(e), 0, 0)
    case Ok(_) => Try(p.maxAttempts, respond, from, 1)
  }

  /** The answer to the `i`-th attempt of the call. */
  function Answer(respond: nat -> Response, from: nat, i: nat): Response {
    respond(from + i)
  }

  predicate AllTransient(respond: nat -> Response, from: nat, n: nat) {
    forall j :: 0 <= j < n ==> Answer(respond, from, j) == Fail(Transient)
  }

  /** The `i`-th answer is the first one that is not a transient failure. */
  predicate Decides(respond: nat -> Response, from: nat, i: nat) {
    AllTransient(respond, from, i) && Answer(respond, from, i) != Fail(Transient)
  }

  /** The trial decided by answer `r` to the `i`-th attempt, counted from zero. */
  function DecidedBy(r: Response, i: nat): Trial {
    match r
    case Accept => Trial(Ok(i + 1), i, 0)
    case Fail(e) => Trial(Raise(e), i, 1)
  }

  lemma {:induction false} TryIsDecided(max: nat, respond: nat -> Response, from: nat, attempt: nat, i: nat)
    requires 1 <= attempt <= max && AllTransient(respond, from, attempt - 1)
    ensures i < max && Decides(respond, from, i) ==>
      Try(max, respond, from, attempt) == DecidedBy(Answer(respond, from, i), i)
    ensures AllTransient(respond, from, max) ==>
      Try(max, respond, from, attempt) == Trial(Raise(RetryExhausted(max)), max, 0)
    decreases max - attempt
  {
    var now := Answer(respond, from, attempt - 1);
    if now == Fail(Transient) {
      if attempt < max {
        TryIsDecided(max, respond, from, attempt + 1, i);
      }
    } else if Decides(respond, from, i) {
      assert i >= attempt - 1;
    }
  }

  lemma {:induction false} SomeAnswerDecides(respond: nat -> Response, from: nat, max: nat)
    ensures AllTransient(respond, from, max) || exists i :: 0 <= i < max && Decides(respond, from, i)
  {
    if max > 0 {
      SomeAnswerDecides(respond, from, max - 1);
      if AllTransient(respond, from, max - 1) && Answer(respond, from, max - 1) != Fail(Transient) {
        assert Decides(respond, from, max - 1);
      }
    }
  }

  /** For every policy and script: an invalid order costs no call; otherwise the first answer
      within the budget that is not transient decides, and without one the budget is exhausted. */
  lemma HandleIsDecided(p: RetryPolicy, respond: nat -> Response, from: nat, order: Order, i: nat)
    requires 1 <= p.maxAttempts
    ensures Validate(order).Raise? ==>
      TrialOf(p, respond, from, order) == Trial(Raise(Validation), 0, 0)
    ensures Validate(order).Ok? && AllTransient(respond, from, p.maxAttempts) ==>
      TrialOf(p, respond, from, order) == Trial(Raise(RetryExhausted(p.maxAttempts)), p.maxAttempts, 0)
    ensures Validate(order).Ok? && i < p.maxAttempts && Decides(respond, from, i) ==>
      TrialOf(p, respond, from, order) == DecidedBy(Answer(respond, from, i), i)
    ensures AllTransient(respond, from, p.maxAttempts) ||
      exists k :: 0 <= k < p.maxAttempts && Decides(respond, from, k)
  {
    ValidExactly(order);
    SomeAnswerDecides(respond, from, p.maxAttempts);
    TryIsDecided(p.maxAttempts, respond, from, 1, i);
  }

  /** What a caller of `handle` gets, answer by answer: an invalid order is refused without a call; the
      first answer that is not transient decides, after exactly the calls up to it; without one within
      the budget, the budget is exhausted, after exactly `maxAttempts` calls. */
  ghost predicate IsVerdict(p: RetryPolicy, respond: nat -> Response, from: nat, order: Order,
                            r: Result<Outcome>, calls: nat)
    requires 1 <= p.maxAttempts
  {
    (Validate(order).Raise? ==> r == Raise(Validation) && calls == 0) &&
    (Validate(order).Ok? && AllTransient(respond, from, p.maxAttempts) ==>
      r == Raise(RetryExhausted(p.maxAttempts)) && calls == p.maxAttempts) &&
    forall i: nat :: Validate(order).Ok? && i < p.maxAttempts && Decides(respond, from, i) ==>
      IsVerdictOf(Answer(respond, from, i), i, order, r, calls)
  }

  predicate IsVerdictOf(answer: Response, i: nat, order: Order, r: Result<Outcome>, calls: nat) {
    calls == i + 1 &&
    match answer
    case Accept => r == Ok(Outcome(order, calls))
    case Fail(e) => r == Raise(e)
  }

  lemma DecidingAnswerIsVerdict(p: RetryPolicy, respond: nat -> Response, from: nat, order: Order, i: nat)
    requires 1 <= p.maxAttempts && Validate(order).Ok? && i < p.maxAttempts && Decides(respond, from, i)
    ensures var t := TrialOf(p, respond, from, order);
      IsVerdictOf(Answer(respond, from, i), i, order, OutcomeOf(order, t), t.Calls()) &&
      (t.result.Ok? ==> t.result.value == t.Calls())
  {
    hide Validate, TrialOf, Decides, AllTransient, Answer;
    HandleIsDecided(p, respond, from, order, i);
  }

  lemma RefusedOrExhausted(p: RetryPolicy, respond: nat -> Response, from: nat, order: Order)
    requires 1 <= p.maxAttempts
    ensures var t := TrialOf(p, respond, from, order);
      (Validate(order).Raise? ==> OutcomeOf(order, t) == Raise(Validation) && t.Calls() == 0) &&
      (Validate(order).Ok? && AllTransient(respond, from, p.maxAttempts) ==>
        OutcomeOf(order, t) == Raise(RetryExhausted(p.maxAttempts)) && t.Calls() == p.maxAttempts) &&
      (t.result.Ok? ==> Validate(order).Ok? && exists k: nat :: k < p.maxAttempts && Decides(respond, from, k))
  {
    hide Validate, TrialOf, Decides, AllTransient, Answer;
    HandleIsDecided(p, respond, from, order, 0);
  }

  lemma OutcomeIsVerdict(p: RetryPolicy, respond: nat -> Response, from: nat, order: Order)
    requires 1 <= p.maxAttempts
    ensures var t := TrialOf(p, respond, from, order);
      IsVerdict(p, respond, from, order, OutcomeOf(order, t), t.Calls()) && (t.result.Ok? ==> t.result.value == t.Calls())
  {
    hide Validate, TrialOf, Decides, AllTransient, Answer, IsVerdictOf, OutcomeOf, Trial.Calls;
    RefusedOrExhausted(p, respond, from, order);
    forall i: nat | Validate(order).Ok? && i < p.maxAttempts && Decides(respond, from, i)
      ensures var t := TrialOf(p, respond, from, order);
        IsVerdictOf(Answer(respond, from, i), i, order, OutcomeOf(order, t), t.Calls()) &&
        (t.result.Ok? ==> t.result.value == t.Calls())
    {
      DecidingAnswerIsVerdict(p, respond, from, order, i);
    }
  }

  lemma OnePauseBetweenCalls(t: Trial)
    ensures t.Pauses() == if t.Calls() == 0 then 0 else t.Calls() - 1
  {
  }

  lemma HandledCases(p: RetryPolicy, respond: nat -> Response, from: nat, order: Order)
    requires 1 <= p.maxAttempts
    ensures var t := TrialOf(p, respond, from, order);
      (Validate(order).Ok? ==> order.price.Finite? && t == Try(p.maxAttempts, respond, from, 1)) &&
      (Validate(order).Raise? ==>
        Validate(order).error == Validation && t == Trial(Raise(Validation), 0, 0) &&
        t.Calls() == t.Pauses() == t.Delivered() == 0)
  {
    ValidExactly(order);
  }

  /** One turn of the loop. */
  lemma TryStep(max: nat, respond: nat -> Response, from: nat, attempt: nat)
    requires 1 <= attempt <= max
    ensures var r := respond(from + attempt - 1);
      Try(max, respond, from, attempt) ==
        if r.Accept? then Trial(Ok(attempt), attempt - 1, 0)
        else if r.error != Transient then Trial(Raise(r.error), attempt - 1, 1)
        else if attempt < max then Try(max, respond, from, attempt + 1)
        else Trial(Raise(RetryExhausted(attempt)), attempt, 0)
    ensures Trial(Ok(attempt), attempt - 1, 0).Calls() == attempt
    ensures Trial(Ok(attempt), attempt - 1, 0).Pauses() == attempt - 1
    ensures forall e :: Trial(Raise(e), attempt - 1, 1).Calls() == attempt
    ensures forall e :: Trial(Raise(e), attempt - 1, 1).Pauses() == attempt - 1
    ensures forall e :: Trial(Raise(e), attempt, 0).Calls() == attempt
    ensures forall e :: Trial(Raise(e), attempt, 0).Pauses() == attempt - 1
  {
  }

  class OrderProcessor {
    const aggregator: Aggregation.OrderAggregator
    const sink: Sink
    const policy: RetryPolicy
    const uniform: (nat, real) -> real
    var drawn: nat

    constructor (aggregator: Aggregation.OrderAggregator, sink: Sink, policy: RetryPolicy, uniform: (nat, real) -> real)
      ensures this.aggregator == aggregator && this.sink == sink && this.policy == policy && this.uniform == uniform
    {
      this.aggregator, this.sink, this.policy, this.uniform := aggregator, sink, policy, uniform;
      drawn := 0;
    }

    ghost predicate Valid()
      reads this, aggregator, aggregator.Repr()
    {
      WellFormed(policy) && Uniform(uniform) && aggregator.Valid() &&
      (sink as object) !in aggregator.Repr() && (this as object) !in aggregator.Repr()
    }

    /** One pause, from the next draw. */
    method Pause(attempt: nat) returns (pause: real)
      requires WellFormed(policy) && Uniform(uniform) && 1 <= attempt
      modifies this`drawn
      ensures DrawnPause(policy, attempt, pause)
    {
      SpreadBelowBase(policy, attempt);
      var x := uniform(drawn, Spread(policy, attempt));
      drawn := drawn + 1;
      pause := Backoff(policy, attempt, x);
      assert Draw(policy, attempt, x);
    }

    /** The sink, the counters and the aggregator move exactly as `TrialOf` says, with one pause
        between any two attempts. */
    method Handle(order: Order) returns (r: Result<Outcome>, pauses: seq<real>)
      requires Valid()
      modifies this, sink, aggregator.Repr()
      ensures Valid() && fresh(aggregator.Repr() - old(aggregator.Repr()))
      ensures var t := TrialOf(policy, sink.respond, old(sink.calls), order);
        && r == OutcomeOf(order, t)
        && sink.calls == old(sink.calls) + t.Calls()
        && sink.delivered == old(sink.delivered) + t.Delivered()
        && sink.failures == old(sink.failures) + t.failures
        && sink.refused == old(sink.refused) + t.refused
        && |pauses| == t.Pauses()
      ensures IsVerdict(policy, sink.respond, old(sink.calls), order, r, sink.calls - old(sink.calls))
      ensures r.Ok? ==> r.value.order == order && r.value.attempts == sink.calls - old(sink.calls)
      ensures PausesOf(policy, pauses) && |pauses| < policy.maxAttempts
      ensures |pauses| == if sink.calls == old(sink.calls) then 0 else sink.calls - old(sink.calls) - 1
      ensures r.Ok? ==> order.price.Finite?
      ensures aggregator.sales ==
        if r.Ok? then old(aggregator.sales) + [Statistics.Sale(order.product, order.price.value)]
        else old(aggregator.sales)
    {
      hide Aggregation.OrderAggregator.Valid, PausesOf, Uniform, Try, Validate, TrialOf;
      hide Trial.Calls, Trial.Pauses, Trial.Delivered;
      NoPauses(policy);
      hide IsVerdict;
      HandledCases(policy, sink.respond, sink.calls, order);
      OutcomeIsVerdict(policy, sink.respond, sink.calls, order);
      OnePauseBetweenCalls(TrialOf(policy, sink.respond, sink.calls, order));
      var valid := Validate(order);
      if valid.Raise? {
        return Raise(valid.error), [];
      }
      r, pauses := Deliver(order);
    }

    /** The attempt loop, for an order that passed validation. */
    method Deliver(order: Order) returns (r: Result<Outcome>, pauses: seq<real>)
      requires Valid() && order.price.Finite?
      modifies this, sink, aggregator.Repr()
      ensures Valid() && fresh(aggregator.Repr() - old(aggregator.Repr()))
      ensures var t := Try(policy.maxAttempts, sink.respond, old(sink.calls), 1);
        && r == OutcomeOf(order, t)
        && sink.calls == old(sink.calls) + t.Calls()
        && sink.delivered == old(sink.delivered) + t.Delivered()
        && sink.failures == old(sink.failures) + t.failures
        && sink.refused == old(sink.refused) + t.refused
        && |pauses| == t.Pauses()
      ensures PausesOf(policy, pauses) && |pauses| < policy.maxAttempts
      ensures aggregator.sales ==
        if r.Ok? then old(aggregator.sales) + [Statistics.Sale(order.product, order.price.value)]
        else old(aggregator.sales)
    {
      hide Aggregation.OrderAggregator.Valid, PausesOf, DrawnPause, Uniform, Try, Trial.Calls, Trial.Pauses;
      NoPauses(policy);
      pauses := [];
      var attempt := 1;
      while attempt <= policy.maxAttempts
        invariant 1 <= attempt <= policy.maxAttempts && |pauses| == attempt - 1
        invariant Valid() && PausesOf(policy, pauses)
        invariant aggregator.sales == old(aggregator.sales) && aggregator.Repr() == old(aggregator.Repr())
        invariant sink.calls == old(sink.calls) + attempt - 1
        invariant sink.failures == old(sink.failures) + attempt - 1
        invariant sink.delivered == old(sink.delivered) && sink.refused == old(sink.refused)
        invariant Try(policy.maxAttempts, sink.respond, old(sink.calls), 1) ==
          Try(policy.maxAttempts, sink.respond, old(sink.calls), attempt)
      {
        TryStep(policy.maxAttempts, sink.respond, old(sink.calls), attempt);
        var response := sink.Call(order);
        if response.Accept? {
          aggregator.Add(order);
          return Ok(Outcome(order, attempt)), pauses;
        }
        if response.error != Transient {
          return Raise(response.error), pauses;
        }
        if !ShouldRetry(policy, attempt) {
          return Raise(RetryExhausted(attempt)), pauses;
        }
        var pause := Pause(attempt);
        OneMorePause(policy, pauses, pause);
        pauses := pauses + [pause];
        attempt := attempt + 1;
      }
      assert false; // the loop either returns or raises
    }
  }

  lemma NoPauses(p: RetryPolicy)
    ensures PausesOf(p, [])
  {
  }

  lemma OneMorePause(p: RetryPolicy, pauses: seq<real>, pause: real)
    requires PausesOf(p, pauses) && DrawnPause(p, |pauses| + 1, pause)
    ensures PausesOf(p, pauses + [pause])
  {
    hide DrawnPause;
  }
}
