/** The consumer loop (`OrderConsumerApp` in apps/consumer.py): a specification of a whole run as a
    fold over what the environment does, the laws of that fold, and the imperative app that
    computes it. */
module Consumer {
  import opened Control
  import opened Orders
  import Retry
  import Statistics
  import opened Processing
  import opened DeadLetters
  import opened Cadence

  // ---- the environment ----

  datatype StoreReply = StoreDone | StoreRefused | StoreRaises

  /** Everything the outside world does around one message. `room` is the snapshot queue's space. */
  datatype Arrival = Arrival(
    message: Message, decoded: Decoded, text: string, atMs: nat,
    publication: Publication, store: StoreReply, room: nat)

  /** What one `poll` returns. */
  datatype Input =
    | Nothing(room: nat)
    | PollError(eof: bool, fatal: bool)
    | PollRaises
    | Incoming(arrival: Arrival)

  /** What happens while the app closes: the room left for the last snapshot, the delivery reports
      the egress flush still brings, and whether that flush is cut short by an exception. */
  datatype Farewell = Farewell(room: nat, late: seq<Report>, raises: bool)

  datatype Exit =
    | Finished | CloseFailed | FatalError | PollFailed
    | DecodeEscaped | SinkEscaped | PublishFailed | StoreFailed

  // ---- the specification ----

  datatype Config = Config(
    policy: Retry.RetryPolicy, respond: nat -> Response, codec: Codec, dlqTopic: string, group: string, host: string,
    pacing: Settings)

  /** All the consumer's books: its counters and those of every component. */
  datatype Books = Books(
    consumed: nat, processed: nat, retried: nat, deadLettered: nat,
    published: nat, letters: seq<Letter>,
    toll: Toll,
    sales: seq<Statistics.Sale>, pace: Pace, trace: seq<Act>)

  datatype Progress = Going(books: Books) | Stopped(books: Books, exit: Exit)

  function Retries(k: nat): (r: seq<Act>)
    ensures |r| == k && forall i :: 0 <= i < k ==> r[i] == Retried
  {
    seq(k, _ => Retried)
  }

  function FailureFor(cfg: Config, d: Arrival, e: Error, attempts: nat): Failure {
    Failure(e, d.text, attempts, d.atMs, cfg.group, cfg.host)
  }

  /** How the letter stands when `publish` is over; when `flush` raises, it is still queued. */
  function FlushOf(p: Publication): Flush {
    if p.Flushed? then p.flush else Flush(0, Queued)
  }

  /** Count the message as dead-lettered, then publish it; what the flush brought changes nothing. */
  function Bury(cfg: Config, b: Books, d: Arrival, e: Error, attempts: nat): Progress {
    var counted := b.(deadLettered := b.deadLettered + 1);
    var letter := LetterOf(cfg.codec, cfg.dlqTopic, d.message, FailureFor(cfg, d, e, attempts));
    var handed := counted.(letters := b.letters + [letter]);
    match d.publication
    case ProduceRaises => Stopped(counted, PublishFailed)
    case FlushRaises => Stopped(handed.(trace := b.trace + [DeadLettered(FlushOf(d.publication))]), PublishFailed)
    case Flushed(flush) =>
      Going(handed.(published := b.published + 1, trace := b.trace + [DeadLettered(flush)]))
  }

  /** The sink's count after one `handle` call, and the retries it took. */
  function Attempted(b: Books, t: Trial): Books {
    b.(toll := Charged(b.toll, t), trace := b.trace + Retries(t.Pauses()))
  }

  function PriceOf(o: Order): real {
    if o.price.Finite? then o.price.value else 0.0
  }

  /** The books of an order that the sink accepted. */
  function Accounted(b: Books, t: Trial, order: Order, attempts: nat): Books {
    var tried := Attempted(b, t);
    tried.(processed := b.processed + 1,
           retried := b.retried + (if attempts > 1 then 1 else 0),
           sales := b.sales + [Statistics.Sale(order.product, PriceOf(order))],
           pace := Noted(b.pace),
           trace := tried.trace + [Accepted])
  }

  /** Where one message ends up. */
  datatype Fate = Processed(attempts: nat) | Buried(error: Error, attempts: nat) | Lost

  /** The `except` clauses around `handle`: what is recorded of a failure. */
  function Verdict(e: Error): Fate {
    if e.RetryExhausted? then Buried(e, e.attempts) else if e == Foreign then Lost else Buried(e, 1)
  }

  function Except(cfg: Config, b: Books, d: Arrival, e: Error): Progress {
    match Verdict(e)
    case Buried(error, attempts) => Bury(cfg, b, d, error, attempts)
    case _ => Stopped(b, SinkEscaped)
  }

  /** `handle` one decoded order, and account for how it ended. */
  function Deliver(cfg: Config, b: Books, d: Arrival, order: Order): Progress
    requires 1 <= cfg.policy.maxAttempts
  {
    var t := TrialOf(cfg.policy, cfg.respond, b.toll.calls, order);
    match t.result
    case Ok(attempts) => Going(Accounted(b, t, order, attempts))
    case Raise(e) => Except(cfg, Attempted(b, t), d, e)
  }

  /** `_handle_message` */
  function Handle(cfg: Config, b: Books, d: Arrival): Progress
    requires 1 <= cfg.policy.maxAttempts
  {
    match Decode(d.decoded)
    case Raise(e) => if e == Deserialization then Bury(cfg, b, d, e, 1) else Stopped(b, DecodeEscaped)
    case Ok(order) => Deliver(cfg, b, d, order)
  }

  function Emission(cfg: Config, b: Books, force: bool): Books {
    b.(pace := Emitted(cfg.pacing, b.pace, force, |b.sales|))
  }

  /** The rest of the loop body, once a message was handled: store its offset, then maybe emit. */
  function Finish(cfg: Config, b: Books, d: Arrival): Progress {
    if d.store.StoreRaises? then Stopped(b, StoreFailed)
    else Going(Emission(cfg, b.(trace := b.trace + [Stored(d.store.StoreDone?)]), false))
  }

  function Arrive(b: Books, m: Message): Books {
    b.(consumed := b.consumed + 1, trace := b.trace + [Polled(m.partition, m.offset)])
  }

  /** One turn of the loop. */
  function Turn(cfg: Config, b: Books, input: Input): Progress
    requires 1 <= cfg.policy.maxAttempts
  {
    match input
    case Nothing(_) => Going(Emission(cfg, b, false))
    case PollError(eof, fatal) => if !eof && fatal then Stopped(b, FatalError) else Going(b)
    case PollRaises => Stopped(b, PollFailed)
    case Incoming(d) =>
      var handled := Handle(cfg, Arrive(b, d.message), d);
      if handled.Stopped? then handled else Finish(cfg, handled.books, d)
  }

  function Opening(cfg: Config): Books {
    Books(0, 0, 0, 0, 0, [], Toll(0, 0, 0, 0), [], Pace(0, cfg.pacing.clock(0), 1, []), [])
  }

  /** The loop over all inputs: the shutdown flag is seen after the last one. */
  function Loop(cfg: Config, inputs: seq<Input>): Progress
    requires 1 <= cfg.policy.maxAttempts
  {
    if inputs == [] then Going(Opening(cfg))
    else
      var before := Loop(cfg, inputs[..|inputs| - 1]);
      if before.Stopped? then before else Turn(cfg, before.books, inputs[|inputs| - 1])
  }

  /** A whole run: the loop, then the final snapshot of `_close`, whichever way the loop ended. */
  function Run(cfg: Config, inputs: seq<Input>): Books
    requires 1 <= cfg.policy.maxAttempts
  {
    Emission(cfg, Loop(cfg, inputs).books, true)
  }

  function ExitOf(p: Progress): Exit {
    if p.Stopped? then p.exit else Finished
  }

  /** How the app ends: an exception while closing takes the place of any earlier one. */
  function LastExit(p: Progress, farewell: Farewell): Exit {
    if farewell.raises then CloseFailed else ExitOf(p)
  }

  // ---- conservation ----

  function Tally(trace: seq<Act>, p: Act -> bool): nat {
    if trace == [] then 0 else Tally(trace[..|trace| - 1], p) + (if p(trace[|trace| - 1]) then 1 else 0)
  }

  predicate IsPolled(a: Act) { a.Polled? }
  predicate IsAccepted(a: Act) { a.Accepted? }
  predicate IsLetter(a: Act) { a.DeadLettered? }
  predicate IsRetried(a: Act) { a.Retried? }

  /** Messages taken but neither processed nor counted as dead-lettered when the loop ended. */
  function InFlight(exit: Exit): nat {
    if exit == DecodeEscaped || exit == SinkEscaped then 1 else 0
  }

  /** Messages counted as dead-lettered whose publication raised. */
  function Unpublished(exit: Exit): nat {
    if exit == PublishFailed then 1 else 0
  }

  /** The books agree across components, up to the one message in flight at an exceptional exit. */
  predicate Balanced(b: Books, exit: Exit) {
    && b.consumed == b.processed + b.deadLettered + InFlight(exit)
    && b.processed == |b.sales| == b.toll.delivered
    && b.deadLettered == b.published + Unpublished(exit)
    && b.published <= |b.letters| <= b.deadLettered
    && b.retried <= b.processed
    && b.toll.calls == b.toll.delivered + b.toll.failures + b.toll.refused
  }

  /** Acceptances that needed a retry. */
  function Recovered(trace: seq<Act>): nat {
    if trace == [] then 0
    else
      var n := |trace| - 1;
      Recovered(trace[..n]) + (if trace[n].Accepted? && 0 < n && trace[n - 1].Retried? then 1 else 0)
  }

  lemma RecoveredOne(a: seq<Act>, act: Act)
    ensures Recovered(a + [act]) ==
      Recovered(a) + (if act.Accepted? && a != [] && a[|a| - 1].Retried? then 1 else 0)
  {
    assert (a + [act])[..|a|] == a;
  }

  lemma {:induction false} RecoveredRetries(a: seq<Act>, k: nat)
    ensures Recovered(a + Retries(k)) == Recovered(a)
  {
    if k == 0 {
      assert a + Retries(0) == a;
    } else {
      RecoveredRetries(a, k - 1);
      RecoveredOne(a + Retries(k - 1), Retried);
      assert a + Retries(k) == a + Retries(k - 1) + [Retried];
    }
  }

  /** The trace tells the same story as the counters. */
  predicate TraceTallies(b: Books) {
    && Recovered(b.trace) == b.retried
    && Tally(b.trace, IsPolled) == b.consumed
    && Tally(b.trace, IsAccepted) == b.processed
    && Tally(b.trace, IsLetter) == |b.letters|
    && Tally(b.trace, IsRetried) <= b.toll.failures
  }

  lemma {:induction false} TallyConcat(a: seq<Act>, b: seq<Act>, p: Act -> bool)
    ensures Tally(a + b, p) == Tally(a, p) + Tally(b, p)
  {
    if b == [] {
      assert a + b == a;
    } else {
      assert (a + b)[..|a + b| - 1] == a + b[..|b| - 1];
      TallyConcat(a, b[..|b| - 1], p);
    }
  }

  lemma TallyOne(a: seq<Act>, act: Act, p: Act -> bool)
    ensures Tally(a + [act], p) == Tally(a, p) + (if p(act) then 1 else 0)
  {
    assert (a + [act])[..|a|] == a;
  }

  lemma {:induction false} TallyRetries(k: nat, p: Act -> bool)
    ensures Tally(Retries(k), p) == if p(Retried) then k else 0
  {
    if k > 0 {
      assert Retries(k)[..k - 1] == Retries(k - 1);
      TallyRetries(k - 1, p);
    }
  }

  lemma {:induction false} TryAccounts(max: nat, respond: nat -> Response, from: nat, attempt: nat)
    requires 1 <= attempt <= max
    ensures var t := Try(max, respond, from, attempt);
      attempt <= t.Calls() <= max && t.Pauses() <= t.failures && (t.result.Ok? ==> t.result.value == t.Calls())
    decreases max - attempt
  {
    if respond(from + attempt - 1) == Fail(Transient) && attempt < max {
      TryAccounts(max, respond, from, attempt + 1);
    }
  }

  lemma HandledAccounts(p: Retry.RetryPolicy, respond: nat -> Response, from: nat, order: Order)
    requires 1 <= p.maxAttempts
    ensures var t := TrialOf(p, respond, from, order);
      t.Calls() <= p.maxAttempts && t.Pauses() <= t.failures &&
      (t.result.Ok? ==> t.result.value == t.Calls() && order.price.Finite?)
  {
    ValidExactly(order);
    if Validate(order).Ok? {
      TryAccounts(p.maxAttempts, respond, from, 1);
    }
  }

  lemma TalliesAfter(b: Books, act: Act)
    ensures var after := b.trace + [act];
      Recovered(after) ==
        Recovered(b.trace) + (if act.Accepted? && b.trace != [] && b.trace[|b.trace| - 1].Retried? then 1 else 0) &&
      Tally(after, IsPolled) == Tally(b.trace, IsPolled) + (if act.Polled? then 1 else 0) &&
      Tally(after, IsAccepted) == Tally(b.trace, IsAccepted) + (if act.Accepted? then 1 else 0) &&
      Tally(after, IsLetter) == Tally(b.trace, IsLetter) + (if act.DeadLettered? then 1 else 0) &&
      Tally(after, IsRetried) == Tally(b.trace, IsRetried) + (if act.Retried? then 1 else 0)
  {
    RecoveredOne(b.trace, act);
    TallyOne(b.trace, act, IsPolled);
    TallyOne(b.trace, act, IsAccepted);
    TallyOne(b.trace, act, IsLetter);
    TallyOne(b.trace, act, IsRetried);
  }

  /** The books with one message polled and not yet settled. */
  predicate OneInHand(b: Books) {
    b.consumed == b.processed + b.deadLettered + 1 &&
    Balanced(b.(consumed := b.consumed - 1), Finished) && TraceTallies(b)
  }

  predicate InBalance(p: Progress) {
    Balanced(p.books, ExitOf(p)) && TraceTallies(p.books)
  }

  lemma BuryBalances(cfg: Config, b: Books, d: Arrival, e: Error, attempts: nat)
    requires OneInHand(b)
    ensures InBalance(Bury(cfg, b, d, e, attempts))
  {
    hide LetterOf, FailureFor, Tally, Recovered;
    TalliesAfter(b, DeadLettered(FlushOf(d.publication)));
  }

  lemma ExceptBalances(cfg: Config, b: Books, d: Arrival, e: Error)
    requires OneInHand(b)
    ensures InBalance(Except(cfg, b, d, e))
  {
    hide Bury, TraceTallies;
    var verdict := Verdict(e);
    if verdict.Buried? {
      BuryBalances(cfg, b, d, verdict.error, verdict.attempts);
    }
  }

  lemma RetriesTally(trace: seq<Act>, k: nat)
    ensures var after := trace + Retries(k);
      Recovered(after) == Recovered(trace) &&
      Tally(after, IsPolled) == Tally(trace, IsPolled) && Tally(after, IsAccepted) == Tally(trace, IsAccepted) &&
      Tally(after, IsLetter) == Tally(trace, IsLetter) && Tally(after, IsRetried) == Tally(trace, IsRetried) + k
  {
    hide Tally, Recovered, Retries;
    RecoveredRetries(trace, k);
    TallyConcat(trace, Retries(k), IsPolled);
    TallyRetries(k, IsPolled);
    TallyConcat(trace, Retries(k), IsAccepted);
    TallyRetries(k, IsAccepted);
    TallyConcat(trace, Retries(k), IsLetter);
    TallyRetries(k, IsLetter);
    TallyConcat(trace, Retries(k), IsRetried);
    TallyRetries(k, IsRetried);
  }

  /** A delivery that raised leaves the message in hand. */
  lemma AttemptBalances(b: Books, t: Trial)
    requires OneInHand(b) && t.Pauses() <= t.failures && t.result.Raise?
    ensures OneInHand(Attempted(b, t))
  {
    hide Tally, Recovered, Retries;
    RetriesTally(b.trace, t.Pauses());
  }

  lemma AcceptBalances(b: Books, t: Trial, order: Order)
    requires OneInHand(b) && t.Pauses() <= t.failures && t.result == Ok(t.Calls())
    requires b.trace != [] && b.trace[|b.trace| - 1].Polled?
    ensures InBalance(Going(Accounted(b, t, order, t.Calls())))
  {
    hide Tally, Recovered, PriceOf, Noted;
    RetriesTally(b.trace, t.Pauses());
    TalliesAfter(Attempted(b, t), Accepted);
    var trace := b.trace + Retries(t.Pauses());
    assert t.Pauses() == 0 ==> trace[|trace| - 1] == b.trace[|b.trace| - 1];
  }

  lemma HandleBalances(cfg: Config, b: Books, d: Arrival)
    requires 1 <= cfg.policy.maxAttempts && OneInHand(b)
    requires b.trace != [] && b.trace[|b.trace| - 1].Polled?
    ensures InBalance(Handle(cfg, b, d))
  {
    hide Bury, Decode, Deliver, OneInHand, TraceTallies;
    var decoded := Decode(d.decoded);
    if decoded.Ok? {
      DeliveryBalances(cfg, b, d, decoded.value);
    } else if decoded.error == Deserialization {
      BuryBalances(cfg, b, d, decoded.error, 1);
    } else {
      EscapeBalances(b);
    }
  }

  lemma EscapeBalances(b: Books)
    requires OneInHand(b)
    ensures InBalance(Stopped(b, DecodeEscaped))
  {
  }

  lemma DeliveryBalances(cfg: Config, b: Books, d: Arrival, order: Order)
    requires 1 <= cfg.policy.maxAttempts && OneInHand(b)
    requires b.trace != [] && b.trace[|b.trace| - 1].Polled?
    ensures InBalance(Deliver(cfg, b, d, order))
  {
    hide TrialOf, Except, Accounted, OneInHand, InBalance, Attempted, Trial.Calls, Trial.Pauses;
    var t := TrialOf(cfg.policy, cfg.respond, b.toll.calls, order);
    HandledAccounts(cfg.policy, cfg.respond, b.toll.calls, order);
    if t.result.Ok? {
      AcceptBalances(b, t, order);
    } else {
      AttemptBalances(b, t);
      ExceptBalances(cfg, Attempted(b, t), d, t.result.error);
    }
  }

  lemma ArriveBalances(b: Books, m: Message)
    requires Balanced(b, Finished) && TraceTallies(b)
    ensures OneInHand(Arrive(b, m))
  {
    hide Tally, Recovered;
    TalliesAfter(b, Polled(m.partition, m.offset));
  }

  lemma FinishBalances(cfg: Config, b: Books, d: Arrival)
    requires Balanced(b, Finished) && TraceTallies(b)
    ensures InBalance(Finish(cfg, b, d))
  {
    hide Tally, Recovered, Emitted;
    TalliesAfter(b, Stored(d.store.StoreDone?));
  }

  lemma TurnBalances(cfg: Config, b: Books, input: Input)
    requires 1 <= cfg.policy.maxAttempts && Balanced(b, Finished) && TraceTallies(b)
    ensures InBalance(Turn(cfg, b, input))
  {
    hide Tally, Recovered, Handle, Finish, Emitted;
    if input.Incoming? {
      var d := input.arrival;
      ArriveBalances(b, d.message);
      HandleBalances(cfg, Arrive(b, d.message), d);
      var handled := Handle(cfg, Arrive(b, d.message), d);
      if handled.Going? {
        FinishBalances(cfg, handled.books, d);
      }
    }
  }

  /** Conservation at every loop head and at every exit: for all inputs, hence for every prefix. */
  lemma {:induction false} LoopBalances(cfg: Config, inputs: seq<Input>)
    requires 1 <= cfg.policy.maxAttempts
    ensures InBalance(Loop(cfg, inputs))
  {
    if inputs == [] {
      assert Loop(cfg, []).books.trace == [];
    } else {
      hide Turn, Balanced, TraceTallies;
      LoopBalances(cfg, inputs[..|inputs| - 1]);
      var before := Loop(cfg, inputs[..|inputs| - 1]);
      if before.Going? {
        TurnBalances(cfg, before.books, inputs[|inputs| - 1]);
      }
    }
  }

  /** With a sink that only fails transiently, such as the simulated downstream, every sink call is a
      delivery or a counted failure. */
  lemma {:induction false} LoopNeverRefused(cfg: Config, inputs: seq<Input>)
    requires 1 <= cfg.policy.maxAttempts && OnlyTransient(cfg.respond)
    ensures var b := Loop(cfg, inputs).books;
      b.toll.refused == 0 && b.toll.calls == b.toll.delivered + b.toll.failures
  {
    LoopBalances(cfg, inputs);
    if inputs != [] {
      LoopNeverRefused(cfg, inputs[..|inputs| - 1]);
      var before := Loop(cfg, inputs[..|inputs| - 1]);
      if before.Going? {
        TurnNeverRefused(cfg, before.books, inputs[|inputs| - 1]);
      }
    }
  }

  lemma TurnNeverRefused(cfg: Config, b: Books, input: Input)
    requires 1 <= cfg.policy.maxAttempts && OnlyTransient(cfg.respond)
    ensures Turn(cfg, b, input).books.toll.refused == b.toll.refused
  {
    hide TrialOf, LetterOf, FailureFor, Decode, Retries, Emitted, OnlyTransient;
    if input.Incoming? && Decode(input.arrival.decoded).Ok? {
      HandledNeverRefused(cfg, b.toll.calls, Decode(input.arrival.decoded).value);
    }
  }

  lemma HandledNeverRefused(cfg: Config, calls: nat, order: Order)
    requires 1 <= cfg.policy.maxAttempts && OnlyTransient(cfg.respond)
    ensures TrialOf(cfg.policy, cfg.respond, calls, order).refused == 0
  {
    TryNeverRefused(cfg.policy.maxAttempts, cfg.respond, calls, 1);
  }

  // ---- the trace keeps to the protocol ----

  lemma {:induction false} RetriesFollow(budget: nat, trace: seq<Act>, k: nat)
    requires Follows(budget, trace) && Reached(budget, trace).Trying?
    requires Reached(budget, trace).attempt + k <= budget
    ensures Follows(budget, trace + Retries(k))
    ensures var was := Reached(budget, trace);
      Reached(budget, trace + Retries(k)) == Trying(was.partition, was.offset, was.attempt + k)
  {
    if k == 0 {
      assert trace + Retries(0) == trace;
    } else {
      RetriesFollow(budget, trace, k - 1);
      FollowsSnoc(budget, trace + Retries(k - 1), Retried);
      assert trace + Retries(k) == trace + Retries(k - 1) + [Retried];
    }
  }

  /** Where the trace stands, by how the loop ended: an exception that escapes from decoding or from
      the sink leaves the message in hand, one from storing leaves it settled but not stored. */
  predicate Stands(p: Progress, phase: Phase) {
    match ExitOf(p)
    case DecodeEscaped => phase.Trying?
    case SinkEscaped => phase.Trying?
    case PublishFailed => !phase.Idle?
    case StoreFailed => phase.Settled?
    case _ => phase.Idle?
  }

  predicate OnProtocol(cfg: Config, p: Progress)
    requires 1 <= cfg.policy.maxAttempts
  {
    Follows(cfg.policy.maxAttempts, p.books.trace) && Stands(p, Reached(cfg.policy.maxAttempts, p.books.trace))
  }

  /** From the message in hand, where handling it leads. */
  predicate LeadsOn(max: nat, p: Progress, m: Message) {
    Follows(max, p.books.trace) &&
    var at := Reached(max, p.books.trace);
    !at.Idle? && at.partition == m.partition && at.offset == m.offset && (if p.Going? then at.Settled? else Stands(p, at))
  }

  predicate HasInHand(max: nat, trace: seq<Act>, m: Message) {
    Follows(max, trace) && Reached(max, trace).Trying? &&
    Reached(max, trace).partition == m.partition && Reached(max, trace).offset == m.offset
  }

  lemma BuryFollows(cfg: Config, max: nat, b: Books, d: Arrival, e: Error, attempts: nat)
    requires HasInHand(max, b.trace, d.message)
    ensures LeadsOn(max, Bury(cfg, b, d, e, attempts), d.message)
  {
    hide Follows, Reached, LetterOf, FailureFor;
    FollowsSnoc(max, b.trace, DeadLettered(FlushOf(d.publication)));
  }

  lemma ExceptFollows(cfg: Config, max: nat, b: Books, d: Arrival, e: Error)
    requires HasInHand(max, b.trace, d.message)
    ensures LeadsOn(max, Except(cfg, b, d, e), d.message)
  {
    hide Follows, Reached, Bury;
    if Verdict(e).Buried? {
      BuryFollows(cfg, max, b, d, Verdict(e).error, Verdict(e).attempts);
    }
  }

  lemma DeliverFollows(cfg: Config, b: Books, d: Arrival, order: Order)
    requires 1 <= cfg.policy.maxAttempts && Follows(cfg.policy.maxAttempts, b.trace)
    requires Reached(cfg.policy.maxAttempts, b.trace) == Trying(d.message.partition, d.message.offset, 1)
    ensures LeadsOn(cfg.policy.maxAttempts, Deliver(cfg, b, d, order), d.message)
  {
    hide Follows, Reached, TrialOf, Except, Charged, PriceOf, Noted, Retries;
    var max: nat := cfg.policy.maxAttempts;
    var t := TrialOf(cfg.policy, cfg.respond, b.toll.calls, order);
    HandledAccounts(cfg.policy, cfg.respond, b.toll.calls, order);
    RetriesFollow(max, b.trace, t.Pauses());
    var tried := Attempted(b, t);
    if t.result.Ok? {
      FollowsSnoc(max, tried.trace, Accepted);
    } else {
      ExceptFollows(cfg, max, tried, d, t.result.error);
    }
  }

  lemma HandleFollows(cfg: Config, b: Books, d: Arrival)
    requires 1 <= cfg.policy.maxAttempts && Follows(cfg.policy.maxAttempts, b.trace)
    requires Reached(cfg.policy.maxAttempts, b.trace) == Trying(d.message.partition, d.message.offset, 1)
    ensures LeadsOn(cfg.policy.maxAttempts, Handle(cfg, b, d), d.message)
  {
    hide Follows, Reached, Deliver, Bury, Decode;
    var decoded := Decode(d.decoded);
    if decoded.Ok? {
      DeliverFollows(cfg, b, d, decoded.value);
    } else if decoded.error == Deserialization {
      BuryFollows(cfg, cfg.policy.maxAttempts, b, d, decoded.error, 1);
    }
  }

  lemma TurnFollows(cfg: Config, b: Books, input: Input)
    requires 1 <= cfg.policy.maxAttempts && OnProtocol(cfg, Going(b))
    ensures OnProtocol(cfg, Turn(cfg, b, input))
  {
    hide Follows, Reached, Handle, Emitted;
    if input.Incoming? {
      var d := input.arrival;
      var max: nat := cfg.policy.maxAttempts;
      FollowsSnoc(max, b.trace, Polled(d.message.partition, d.message.offset));
      var arrived := Arrive(b, d.message);
      HandleFollows(cfg, arrived, d);
      var handled := Handle(cfg, arrived, d);
      if handled.Going? {
        FollowsSnoc(max, handled.books.trace, Stored(d.store.StoreDone?));
      }
    }
  }

  /** Whatever the environment does, the app's acts are a run of the group protocol's consumer:
      no store without a terminal state, no second poll before the store, no attempt past the budget,
      and no store after an exception. */
  lemma {:induction false} LoopFollowsProtocol(cfg: Config, inputs: seq<Input>)
    requires 1 <= cfg.policy.maxAttempts
    ensures OnProtocol(cfg, Loop(cfg, inputs))
  {
    if inputs == [] {
      assert Loop(cfg, []).books.trace == [];
    } else {
      hide Turn, Follows, Reached;
      LoopFollowsProtocol(cfg, inputs[..|inputs| - 1]);
      var before := Loop(cfg, inputs[..|inputs| - 1]);
      if before.Going? {
        TurnFollows(cfg, before.books, inputs[|inputs| - 1]);
      }
    }
  }

  // ---- emissions over a run ----

  lemma HandleKeepsPace(cfg: Config, b: Books, d: Arrival)
    requires 1 <= cfg.policy.maxAttempts && 1 <= cfg.pacing.everyN
    requires Booked(b.pace, |b.sales|) && b.pace.sinceLast < cfg.pacing.everyN
    ensures var r := Handle(cfg, b, d);
      Booked(r.books.pace, |r.books.sales|) && r.books.pace.sinceLast <= cfg.pacing.everyN &&
      r.books.pace.ticks == b.pace.ticks
  {
    hide Booked, LetterOf, FailureFor, Decode, TrialOf, Retries;
    NoteKeepsBooks(b.pace, |b.sales|);
  }

  lemma TurnKeepsPace(cfg: Config, b: Books, input: Input)
    requires 1 <= cfg.policy.maxAttempts && 1 <= cfg.pacing.everyN
    requires OnPace(cfg, Going(b))
    ensures OnPace(cfg, Turn(cfg, b, input))
  {
    hide Handle, Emitted, Booked;
    if input.Nothing? {
      EmitKeepsBooks(cfg.pacing, b.pace, false, |b.sales|);
      EmitIsTimely(cfg.pacing, b.pace, |b.sales|);
    }
    if input.Incoming? {
      var d := input.arrival;
      var arrived := Arrive(b, d.message);
      HandleKeepsPace(cfg, arrived, d);
      var handled := Handle(cfg, arrived, d);
      EmitKeepsBooks(cfg.pacing, handled.books.pace, false, |handled.books.sales|);
      EmitIsTimely(cfg.pacing, handled.books.pace, |handled.books.sales|);
    }
  }

  /** Emissions and pending orders are exactly the processed ones; at a loop head the pending ones
      are fewer than `everyN` and, by the last reading of the clock, not yet due. */
  predicate OnPace(cfg: Config, p: Progress) {
    Booked(p.books.pace, |p.books.sales|) && p.books.pace.sinceLast <= cfg.pacing.everyN &&
    1 <= p.books.pace.ticks && (p.Going? ==> Timely(cfg.pacing, p.books.pace))
  }

  /** The cadence holds at every loop head and every exit. */
  lemma {:induction false} LoopKeepsPace(cfg: Config, inputs: seq<Input>)
    requires 1 <= cfg.policy.maxAttempts && 1 <= cfg.pacing.everyN
    ensures OnPace(cfg, Loop(cfg, inputs))
  {
    if inputs == [] {
      assert Loop(cfg, inputs).books.sales == [];
    } else {
      hide Turn, OnPace;
      LoopKeepsPace(cfg, inputs[..|inputs| - 1]);
      var before := Loop(cfg, inputs[..|inputs| - 1]);
      if before.Going? {
        TurnKeepsPace(cfg, before.books, inputs[|inputs| - 1]);
      }
    }
  }

  lemma HandleKeepsSpacing(cfg: Config, b: Books, d: Arrival)
    requires 1 <= cfg.policy.maxAttempts && Spaced(cfg.pacing, b.pace)
    ensures Spaced(cfg.pacing, Handle(cfg, b, d).books.pace)
  {
    hide LetterOf, FailureFor, Decode, TrialOf, Retries, Apart;
  }

  lemma TurnKeepsSpacing(cfg: Config, b: Books, input: Input)
    requires 1 <= cfg.policy.maxAttempts && NeverBack(cfg.pacing.clock) && Spaced(cfg.pacing, b.pace)
    ensures Spaced(cfg.pacing, Turn(cfg, b, input).books.pace)
  {
    hide Handle, Emitted, Spaced, NeverBack;
    EmitKeepsSpacing(cfg.pacing, b.pace, false, |b.sales|);
    if input.Incoming? {
      var arrived := Arrive(b, input.arrival.message);
      HandleKeepsSpacing(cfg, arrived, input.arrival);
      var handled := Handle(cfg, arrived, input.arrival).books;
      EmitKeepsSpacing(cfg.pacing, handled.pace, false, |handled.sales|);
    }
  }

  lemma {:induction false} LoopKeepsSpacing(cfg: Config, inputs: seq<Input>)
    requires 1 <= cfg.policy.maxAttempts && NeverBack(cfg.pacing.clock)
    ensures Spaced(cfg.pacing, Loop(cfg, inputs).books.pace)
  {
    if inputs != [] {
      hide Turn, Spaced, NeverBack;
      LoopKeepsSpacing(cfg, inputs[..|inputs| - 1]);
      var before := Loop(cfg, inputs[..|inputs| - 1]);
      if before.Going? {
        TurnKeepsSpacing(cfg, before.books, inputs[|inputs| - 1]);
      }
    }
  }

  /** Rate limit over a whole run, the final snapshot included: an unforced emission that does not
      cover a full batch comes at least an interval after the one before it, or after the start. */
  lemma RunIsRateLimited(cfg: Config, inputs: seq<Input>, i: nat)
    requires 1 <= cfg.policy.maxAttempts && NeverBack(cfg.pacing.clock)
    requires i < |Run(cfg, inputs).pace.rounds|
    ensures var rounds := Run(cfg, inputs).pace.rounds;
      var before := if i == 0 then cfg.pacing.clock(0) else rounds[i - 1].at;
      before <= rounds[i].at &&
      (rounds[i].forced || cfg.pacing.everyN <= rounds[i].covered || before + cfg.pacing.interval <= rounds[i].at)
  {
    hide Loop, Emitted, NeverBack;
    LoopKeepsSpacing(cfg, inputs);
    var r := Loop(cfg, inputs).books;
    EmitKeepsSpacing(cfg.pacing, r.pace, true, |r.sales|);
    var rounds := Run(cfg, inputs).pace.rounds;
    assert Apart(cfg.pacing, PreviousAt(cfg.pacing, rounds, i), rounds[i]);
  }

  /** However the loop ends, the final snapshot of a run that processed anything shows every
      processed order, and unforced emissions never outnumber processed orders. */
  lemma RunEndsComplete(cfg: Config, inputs: seq<Input>)
    requires 1 <= cfg.policy.maxAttempts && 1 <= cfg.pacing.everyN
    ensures var b := Run(cfg, inputs);
      Balanced(b, ExitOf(Loop(cfg, inputs))) && Booked(b.pace, b.processed) &&
      Unforced(b.pace.rounds) <= b.processed &&
      (0 < b.processed ==>
        b.pace.rounds != [] && b.pace.rounds[|b.pace.rounds| - 1].total == b.processed && b.pace.sinceLast == 0)
  {
    hide Loop, Booked, Emitted;
    LoopBalances(cfg, inputs);
    LoopKeepsPace(cfg, inputs);
    var r := Loop(cfg, inputs).books;
    EmitKeepsBooks(cfg.pacing, r.pace, true, |r.sales|);
    EmissionsAreBounded(Run(cfg, inputs).pace, |r.sales|);
    if 0 < |r.sales| {
      FinalSnapshotIsComplete(cfg.pacing, r.pace, |r.sales|);
    }
  }

  // ---- routing ----

  /** What `_handle_message` decides for a message, before any publication. */
  function FateOf(cfg: Config, calls: nat, d: Arrival): Fate
    requires 1 <= cfg.policy.maxAttempts
  {
    match Decode(d.decoded)
    case Raise(e) => if e == Deserialization then Buried(e, 1) else Lost
    case Ok(order) =>
      match TrialOf(cfg.policy, cfg.respond, calls, order).result
      case Ok(n) => Processed(n)
      case Raise(e) => Verdict(e)
  }

  /** The one terminal act of a message, as the rest of the group sees it: acceptance, or a dead letter
      with what its flush brought; none if nothing was handed over. */
  function EndOf(fate: Fate, p: Publication): seq<Act> {
    match fate
    case Processed(_) => [Accepted]
    case Lost => []
    case Buried(_, _) =>
      match p
      case ProduceRaises => []
      case FlushRaises => [DeadLettered(Flush(0, Queued))]
      case Flushed(flush) => [DeadLettered(flush)]
  }

  function Plus(n: nat, more: bool): nat {
    if more then n + 1 else n
  }

  /** Handling a message, by its fate: at most one letter is handed over, which is its dead letter, with
      its own error and attempts; the order is aggregated exactly if the sink accepted it; each counter
      moves by its own case; the acts are one retry between any two sink calls and the terminal state. */
  lemma LetterCarriesFate(cfg: Config, b: Books, d: Arrival)
    requires 1 <= cfg.policy.maxAttempts
    ensures var r := Handle(cfg, b, d).books;
      var fate := FateOf(cfg, b.toll.calls, d);
      (if fate.Buried? && !d.publication.ProduceRaises? then
        |r.letters| == |b.letters| + 1 && r.letters[..|b.letters|] == b.letters &&
        IsDeadLetter(r.letters[|b.letters|], cfg.codec, cfg.dlqTopic, d.message, fate.error, d.text, fate.attempts, d.atMs,
                     cfg.group, cfg.host)
      else r.letters == b.letters) &&
      (fate.Processed? ==> Decode(d.decoded).Ok?) &&
      r.sales == (
        if fate.Processed?
        then b.sales + [Statistics.Sale(Decode(d.decoded).value.product, PriceOf(Decode(d.decoded).value))]
        else b.sales)
  {
    hide LetterOf, Decode, TrialOf, PriceOf, Retries, Noted, IsDeadLetter;
    var fate := FateOf(cfg, b.toll.calls, d);
    if fate.Buried? {
      LetterIsDeadLetter(cfg.codec, cfg.dlqTopic, d.message, FailureFor(cfg, d, fate.error, fate.attempts));
    }
  }

  lemma HandleMovesCounters(cfg: Config, b: Books, d: Arrival)
    requires 1 <= cfg.policy.maxAttempts
    ensures var r := Handle(cfg, b, d).books;
      var fate := FateOf(cfg, b.toll.calls, d);
      var calls := SinkCalls(cfg, b.toll.calls, d);
      r.consumed == b.consumed && r.toll.calls == b.toll.calls + calls &&
      r.processed == Plus(b.processed, fate.Processed?) && r.retried == Plus(b.retried, fate.Processed? && 1 < calls) &&
      r.deadLettered == Plus(b.deadLettered, fate.Buried?) &&
      r.published == Plus(b.published, fate.Buried? && d.publication.Flushed?) &&
      r.pace == b.pace.(sinceLast := Plus(b.pace.sinceLast, fate.Processed?)) &&
      (fate.Processed? ==> fate.attempts == calls)
  {
    hide LetterOf, FailureFor, Decode, TrialOf, PriceOf, Retries;
    if Decode(d.decoded).Ok? {
      HandledAccounts(cfg.policy, cfg.respond, b.toll.calls, Decode(d.decoded).value);
    }
  }

  lemma HandleLeavesTrace(cfg: Config, b: Books, d: Arrival)
    requires 1 <= cfg.policy.maxAttempts
    ensures var calls := SinkCalls(cfg, b.toll.calls, d);
      Handle(cfg, b, d).books.trace ==
        b.trace + seq(if calls == 0 then 0 else calls - 1, _ => Retried) + EndOf(FateOf(cfg, b.toll.calls, d), d.publication)
  {
    hide LetterOf, FailureFor, Decode, TrialOf, PriceOf;
    var calls := SinkCalls(cfg, b.toll.calls, d);
    assert seq(if calls == 0 then 0 else calls - 1, _ => Retried) == Retries(if calls == 0 then 0 else calls - 1);
    assert b.trace + Retries(0) == b.trace;
  }

  /** Handling stops the loop exactly if publishing raised, or if nothing is recorded of the message. */
  lemma HandleStopsExactly(cfg: Config, b: Books, d: Arrival)
    requires 1 <= cfg.policy.maxAttempts
    ensures var fate := FateOf(cfg, b.toll.calls, d);
      match fate
      case Processed(_) => Handle(cfg, b, d).Going?
      case Buried(_, _) =>
        if d.publication.Flushed? then Handle(cfg, b, d).Going? else ExitOf(Handle(cfg, b, d)) == PublishFailed
      case Lost => ExitOf(Handle(cfg, b, d)) == if Decode(d.decoded).Raise? then DecodeEscaped else SinkEscaped
  {
    hide LetterOf, FailureFor, Decode, TrialOf, PriceOf, Retries;
  }

  /** One more input for a loop that is still going, whatever came before. An empty poll brings the
      publisher up to date and does nothing else; a transport error is passed over unless it is fatal and
      not the end of a partition; a message is counted, handled, and, unless that or storing raised, its
      store is on record, truthfully, and the publisher brought up to date. */
  lemma TurnExactly(cfg: Config, inputs: seq<Input>, input: Input)
    requires 1 <= cfg.policy.maxAttempts && 1 <= cfg.pacing.everyN && Loop(cfg, inputs).Going?
    ensures var b, r := Loop(cfg, inputs).books, Loop(cfg, inputs + [input]);
      match input
      case Nothing(_) =>
        r == Going(b.(pace := r.books.pace)) && UpToDate(cfg.pacing, b.pace, r.books.pace, |b.sales|)
      case PollError(eof, fatal) => r == if fatal && !eof then Stopped(b, FatalError) else Going(b)
      case PollRaises => r == Stopped(b, PollFailed)
      case Incoming(d) =>
        var arrived := b.(consumed := b.consumed + 1, trace := b.trace + [Polled(d.message.partition, d.message.offset)]);
        var h := Handle(cfg, arrived, d);
        if h.Stopped? then r == h
        else if d.store.StoreRaises? then r == Stopped(h.books, StoreFailed)
        else
          r == Going(h.books.(pace := r.books.pace, trace := h.books.trace + [Stored(d.store == StoreDone)])) &&
          UpToDate(cfg.pacing, h.books.pace, r.books.pace, |h.books.sales|)
  {
    hide Handle, Emitted, UpToDate, Booked;
    var b := Loop(cfg, inputs).books;
    assert (inputs + [input])[..|inputs|] == inputs;
    LoopKeepsPace(cfg, inputs);
    PendingAreProcessed(b.pace, |b.sales|);
    EmitBringsUpToDate(cfg.pacing, b.pace, |b.sales|);
    if input.Incoming? {
      var d := input.arrival;
      var arrived := Arrive(b, d.message);
      HandleKeepsPace(cfg, arrived, d);
      var h := Handle(cfg, arrived, d).books;
      PendingAreProcessed(h.pace, |h.sales|);
      EmitBringsUpToDate(cfg.pacing, h.pace, |h.sales|);
    }
  }

  lemma PendingAreProcessed(p: Pace, processed: nat)
    requires Booked(p, processed)
    ensures p.sinceLast <= processed
  {
  }

  /** Sinks as the design means them: they raise only transient or permanent, non-decoding errors. */
  ghost predicate Ordinary(respond: nat -> Response) {
    forall i :: respond(i).Accept? || respond(i).error in {Transient, Permanent, Validation}
  }

  predicate Floats(d: Decoded) {
    d.AvroRecord? ==> forall name :: name in d.fields ==> !d.fields[name].number.Escapes?
  }

  /** Which answer decides the order's delivery: none when the order is invalid. */
  predicate SinkRefuses(cfg: Config, calls: nat, order: Order, i: nat) {
    Validate(order).Ok? && i < cfg.policy.maxAttempts && Decides(cfg.respond, calls, i) && Answer(cfg.respond, calls, i).Fail?
  }

  predicate BudgetSpent(cfg: Config, calls: nat, order: Order)
    requires 1 <= cfg.policy.maxAttempts
  {
    Validate(order).Ok? && AllTransient(cfg.respond, calls, cfg.policy.maxAttempts)
  }

  /** Every fate of a decoded order, for any sink whatever. */
  lemma FateOfOrder(cfg: Config, calls: nat, d: Arrival, order: Order)
    requires 1 <= cfg.policy.maxAttempts && Decode(d.decoded) == Ok(order)
    ensures Validate(order).Raise? ==> FateOf(cfg, calls, d) == Buried(Validation, 1)
    ensures BudgetSpent(cfg, calls, order) ==>
      FateOf(cfg, calls, d) == Buried(RetryExhausted(cfg.policy.maxAttempts), cfg.policy.maxAttempts)
    ensures forall i :: SinkRefuses(cfg, calls, order, i) ==>
      FateOf(cfg, calls, d) == Verdict(Answer(cfg.respond, calls, i).error)
    ensures FateOf(cfg, calls, d).Processed? <==>
      Validate(order).Ok? && !BudgetSpent(cfg, calls, order) && forall i :: !SinkRefuses(cfg, calls, order, i)
  {
    hide Decode, Validate, TrialOf, Decides, AllTransient;
    HandleIsDecided(cfg.policy, cfg.respond, calls, order, 0);
    forall i: nat | SinkRefuses(cfg, calls, order, i)
      ensures TrialOf(cfg.policy, cfg.respond, calls, order) ==
        Trial(Raise(Answer(cfg.respond, calls, i).error), i, 1)
    {
      HandleIsDecided(cfg.policy, cfg.respond, calls, order, i);
    }
    if Validate(order).Ok? && !BudgetSpent(cfg, calls, order) {
      var k :| 0 <= k < cfg.policy.maxAttempts && Decides(cfg.respond, calls, k);
      HandleIsDecided(cfg.policy, cfg.respond, calls, order, k);
      if Answer(cfg.respond, calls, k).Fail? {
        assert SinkRefuses(cfg, calls, order, k);
      }
    }
  }

  /** Routing is total and faithful for ordinary sinks: each reason stands for exactly one cause,
      the attempts header of an exhausted budget is the number of calls made, and
      `UNEXPECTED_ERROR` never occurs. */
  lemma RoutingIsFaithful(cfg: Config, calls: nat, d: Arrival)
    requires 1 <= cfg.policy.maxAttempts && Ordinary(cfg.respond) && Floats(d.decoded)
    ensures var fate := FateOf(cfg, calls, d);
      var decoded := Decode(d.decoded);
      !fate.Lost? &&
      (fate.Buried? && Classify(fate.error) == DeserializationFailure <==> decoded.Raise?) &&
      (fate.Buried? && Classify(fate.error) == ValidationFailure <==>
        decoded.Ok? && (Validate(decoded.value).Raise? || exists i :: SinkRefuses(cfg, calls, decoded.value, i))) &&
      (fate.Buried? && Classify(fate.error) == RetriesExhausted <==>
        decoded.Ok? && BudgetSpent(cfg, calls, decoded.value)) &&
      (fate.Buried? && Classify(fate.error) == RetriesExhausted ==>
        fate.attempts == cfg.policy.maxAttempts == TrialOf(cfg.policy, cfg.respond, calls, decoded.value).Calls()) &&
      !(fate.Buried? && Classify(fate.error) == UnexpectedError)
  {
    DecodeFailures(d.decoded);
    var decoded := Decode(d.decoded);
    if decoded.Raise? {
      assert decoded.error == Deserialization;
    } else {
      RoutingOfOrder(cfg, calls, d, decoded.value);
    }
  }

  lemma RoutingOfOrder(cfg: Config, calls: nat, d: Arrival, order: Order)
    requires 1 <= cfg.policy.maxAttempts && Ordinary(cfg.respond) && Decode(d.decoded) == Ok(order)
    ensures var fate := FateOf(cfg, calls, d);
      !fate.Lost? && (fate.Buried? ==> Classify(fate.error) in {ValidationFailure, RetriesExhausted}) &&
      (fate.Buried? && Classify(fate.error) == ValidationFailure <==>
        Validate(order).Raise? || exists i :: SinkRefuses(cfg, calls, order, i)) &&
      (fate.Buried? && Classify(fate.error) == RetriesExhausted <==> BudgetSpent(cfg, calls, order)) &&
      (BudgetSpent(cfg, calls, order) ==>
        fate.attempts == cfg.policy.maxAttempts == TrialOf(cfg.policy, cfg.respond, calls, order).Calls())
  {
    hide Decode, Validate, TrialOf, Decides, AllTransient, FateOf;
    FateOfOrder(cfg, calls, d, order);
    HandleIsDecided(cfg.policy, cfg.respond, calls, order, 0);
    forall i: nat | SinkRefuses(cfg, calls, order, i)
      ensures FateOf(cfg, calls, d) == Buried(Answer(cfg.respond, calls, i).error, 1)
      ensures Answer(cfg.respond, calls, i).error in {Permanent, Validation}
    {
      RefusalIsPermanent(cfg, calls, order, i);
    }
  }

  lemma RefusalIsPermanent(cfg: Config, calls: nat, order: Order, i: nat)
    requires Ordinary(cfg.respond) && SinkRefuses(cfg, calls, order, i)
    ensures Answer(cfg.respond, calls, i).error in {Permanent, Validation}
  {
    assert cfg.respond(calls + i) != Fail(Transient);
  }

  /** Without the premise on sinks, exactly one case is recorded as unexpected: an answer that is
      a processing error of no known class. Anything outside that taxonomy is not recorded at all. */
  lemma UnexpectedExactly(cfg: Config, calls: nat, d: Arrival)
    requires 1 <= cfg.policy.maxAttempts
    ensures var fate := FateOf(cfg, calls, d);
      var decoded := Decode(d.decoded);
      (fate.Buried? && Classify(fate.error) == UnexpectedError <==>
        decoded.Ok? && exists i :: SinkRefuses(cfg, calls, decoded.value, i) && Answer(cfg.respond, calls, i) == Fail(Other)) &&
      (fate.Lost? <==>
        decoded == Raise(Foreign) ||
        (decoded.Ok? && exists i :: SinkRefuses(cfg, calls, decoded.value, i) && Answer(cfg.respond, calls, i) == Fail(Foreign)))
  {
    DecodeFailures(d.decoded);
    hide Decode, Validate, TrialOf, Decides, AllTransient;
    var decoded := Decode(d.decoded);
    if decoded.Ok? {
      FateOfOrder(cfg, calls, d, decoded.value);
      forall i: nat | SinkRefuses(cfg, calls, decoded.value, i) ensures Answer(cfg.respond, calls, i) != Fail(Transient) {
        RefusalNotTransient(cfg, calls, decoded.value, i);
      }
    }
  }

  lemma RefusalNotTransient(cfg: Config, calls: nat, order: Order, i: nat)
    requires SinkRefuses(cfg, calls, order, i)
    ensures Answer(cfg.respond, calls, i) != Fail(Transient)
  {
  }

  /** The sink calls one message costs. */
  function SinkCalls(cfg: Config, calls: nat, d: Arrival): nat
    requires 1 <= cfg.policy.maxAttempts
  {
    match Decode(d.decoded)
    case Raise(_) => 0
    case Ok(order) => TrialOf(cfg.policy, cfg.respond, calls, order).Calls()
  }

  /** The answer that ends the delivery claims as many attempts as were made: a refusal always says
      one, except that a sink may itself raise an exhausted budget with a count of its own. */
  predicate ClaimsItsCalls(e: Error, k: nat) {
    if e.RetryExhausted? then e.attempts == k + 1 else k == 0
  }

  /** When the attempts header of a dead letter is the number of sink calls, for any sink and any
      message: exactly if the budget was exhausted or the refusing answer claims the calls made.
      A permanent failure after transient ones, an invalid order and an undecodable message are all
      recorded as one attempt. */
  lemma AttemptsHeaderExactly(cfg: Config, calls: nat, d: Arrival)
    requires 1 <= cfg.policy.maxAttempts && FateOf(cfg, calls, d).Buried?
    ensures var decoded := Decode(d.decoded);
      FateOf(cfg, calls, d).attempts == SinkCalls(cfg, calls, d) <==>
      decoded.Ok? && Validate(decoded.value).Ok? &&
      (BudgetSpent(cfg, calls, decoded.value) ||
       exists k :: SinkRefuses(cfg, calls, decoded.value, k) && ClaimsItsCalls(Answer(cfg.respond, calls, k).error, k))
  {
    hide Decode, Validate, TrialOf, BudgetSpent, SinkRefuses, Answer;
    var decoded := Decode(d.decoded);
    if decoded.Ok? {
      var order := decoded.value;
      FateOfOrder(cfg, calls, d, order);
      CallsOfOrder(cfg, calls, order);
      if k :| SinkRefuses(cfg, calls, order, k) {
        OneRefusal(cfg, calls, order, k);
        RefusalCosts(cfg, calls, order, k);
      }
    }
  }

  lemma RefusalCosts(cfg: Config, calls: nat, order: Order, k: nat)
    requires 1 <= cfg.policy.maxAttempts && SinkRefuses(cfg, calls, order, k)
    ensures TrialOf(cfg.policy, cfg.respond, calls, order).Calls() == k + 1
  {
    hide Validate, Decides, AllTransient, TrialOf, Answer;
    HandleIsDecided(cfg.policy, cfg.respond, calls, order, k);
  }

  lemma CallsOfOrder(cfg: Config, calls: nat, order: Order)
    requires 1 <= cfg.policy.maxAttempts
    ensures var n := TrialOf(cfg.policy, cfg.respond, calls, order).Calls();
      (Validate(order).Raise? ==> n == 0) && (BudgetSpent(cfg, calls, order) ==> n == cfg.policy.maxAttempts)
  {
    hide Validate, Decides, AllTransient, TrialOf;
    HandleIsDecided(cfg.policy, cfg.respond, calls, order, 0);
  }

  /** At most one answer refuses, and then the budget is not exhausted. */
  lemma OneRefusal(cfg: Config, calls: nat, order: Order, k: nat)
    requires 1 <= cfg.policy.maxAttempts && SinkRefuses(cfg, calls, order, k)
    ensures !BudgetSpent(cfg, calls, order) && forall i: nat :: SinkRefuses(cfg, calls, order, i) ==> i == k
  {
    hide Validate;
    forall i: nat | SinkRefuses(cfg, calls, order, i) ensures i == k {
      assert Answer(cfg.respond, calls, i) != Fail(Transient) && Answer(cfg.respond, calls, k) != Fail(Transient);
    }
    assert Answer(cfg.respond, calls, k) != Fail(Transient);
  }

  /** The sink fails transiently once and then for good: two calls, and a header that says one. */
  lemma UndercountedAttempts(cfg: Config, d: Arrival, order: Order)
    requires cfg.policy.maxAttempts == 2 && Decode(d.decoded) == Ok(order) && Validate(order).Ok?
    requires cfg.respond(0) == Fail(Transient) && cfg.respond(1) == Fail(Permanent)
    ensures FateOf(cfg, 0, d) == Buried(Permanent, 1) && SinkCalls(cfg, 0, d) == 2
  {
    hide Decode, Validate;
    assert TrialOf(cfg.policy, cfg.respond, 0, order) == Try(2, cfg.respond, 0, 2);
  }

  /** The sink raises something outside the taxonomy: the message is recorded nowhere, nothing is
      stored for it, and the app leaves the loop. */
  lemma EscapedFailure(cfg: Config, d: Arrival, order: Order, b: Books)
    requires 1 <= cfg.policy.maxAttempts && Decode(d.decoded) == Ok(order) && Validate(order).Ok?
    requires cfg.respond(b.toll.calls) == Fail(Foreign)
    ensures FateOf(cfg, b.toll.calls, d) == Lost
    ensures var r := Handle(cfg, b, d);
      r.Stopped? && r.exit == SinkEscaped && r.books.letters == b.letters && r.books.trace == b.trace
  {
    hide Decode, Validate;
  }

  lemma {:induction false} StaysStopped(cfg: Config, inputs: seq<Input>, i: nat)
    requires 1 <= cfg.policy.maxAttempts && i <= |inputs| && Loop(cfg, inputs[..i]).Stopped?
    ensures Loop(cfg, inputs) == Loop(cfg, inputs[..i])
    decreases |inputs|
  {
    if i == |inputs| {
      assert inputs[..i] == inputs;
    } else {
      assert inputs[..|inputs| - 1][..i] == inputs[..i];
      StaysStopped(cfg, inputs[..|inputs| - 1], i);
    }
  }
}
