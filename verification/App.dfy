/** The imperative consumer (`OrderConsumerApp`), proved to compute the specified run. */
module App {
  import opened Control
  import opened Orders
  import Retry
  import Statistics
  import Aggregation
  import opened Processing
  import DeadLetters
  import Cadence
  import opened C = Consumer

  class ConsumerCounters {
    var consumed: nat
    var processed: nat
    var retried: nat
    var deadLettered: nat

    constructor ()
      ensures consumed == processed == retried == deadLettered == 0
    {
      consumed, processed, retried, deadLettered := 0, 0, 0, 0;
    }
  }

  class ConsumerApp {
    const counters: ConsumerCounters
    const aggregator: Aggregation.OrderAggregator
    const sink: Sink
    const dlq: DeadLetters.DeadLetterPublisher
    const aggregates: Cadence.AggregatePublisher
    const processor: OrderProcessor
    /** `close()` was reached, so the offsets stored are committed. */
    var closed: bool
    /** What the rest of the group has seen this consumer do. */
    ghost var trace: seq<Act>

    constructor (processor: OrderProcessor, dlq: DeadLetters.DeadLetterPublisher, aggregates: Cadence.AggregatePublisher)
      requires processor.Valid() && 1 <= aggregates.settings.everyN
      requires (dlq as object) !in processor.aggregator.Repr() && (aggregates as object) !in processor.aggregator.Repr()
      ensures Valid() && fresh(counters) && !closed && trace == []
      ensures this.processor == processor && aggregator == processor.aggregator && sink == processor.sink
      ensures this.dlq == dlq && this.aggregates == aggregates
      ensures counters.consumed == counters.processed == counters.retried == counters.deadLettered == 0
    {
      counters := new ConsumerCounters();
      aggregator, sink, this.processor := processor.aggregator, processor.sink, processor;
      this.dlq, this.aggregates := dlq, aggregates;
      closed, trace := false, [];
      new;
      hide OrderProcessor.Valid, Aggregation.OrderAggregator.Valid, Retry.WellFormed, Uniform;
    }

    ghost function Parts(): set<object> {
      {this, counters, sink, dlq, aggregates, processor}
    }

    ghost function Footprint(): set<object>
      reads aggregator
    {
      Parts() + aggregator.Repr()
    }

    ghost predicate Valid()
      reads Footprint()
    {
      processor.aggregator == aggregator && processor.sink == sink && processor.Valid() &&
      Parts() !! aggregator.Repr() && 1 <= aggregates.settings.everyN
    }

    ghost function Setup(): Config {
      Config(processor.policy, sink.respond, dlq.codec, dlq.topic, dlq.group, dlq.host, aggregates.settings)
    }

    ghost function Now(): Books
      reads Footprint()
    {
      Books(counters.consumed, counters.processed, counters.retried, counters.deadLettered,
            dlq.published, dlq.letters, sink.Count(), aggregator.sales, aggregates.Now(), trace)
    }

    /** What has been published so far: the i-th list shows the orders processed up to the i-th round. */
    ghost predicate Shown()
      reads aggregates, aggregator
    {
      if aggregates.enabled then Cadence.Published(aggregates.rounds, aggregates.produced, aggregator.sales)
      else aggregates.produced == []
    }

    /** Nothing new is published, and orders are only added. */
    twostate predicate Unpublished()
      reads aggregates, aggregator
    {
      aggregates.produced == old(aggregates.produced) && aggregates.rounds == old(aggregates.rounds) &&
      old(aggregator.sales) <= aggregator.sales
    }

    twostate lemma UnpublishedStaysShown()
      requires old(Shown()) && Unpublished()
      ensures Shown()
    {
      if aggregates.enabled {
        Cadence.PublishedGrows(aggregates.rounds, aggregates.produced, old(aggregator.sales), aggregator.sales);
      }
    }

    /** The progress a method reports: still going, or leaving the loop. */
    ghost predicate Reports(exit: Option<Exit>, p: Progress)
      reads Footprint()
    {
      Now() == p.books && exit == (if p.Stopped? then Some(p.exit) else None)
    }

    /** Count the message as dead-lettered and publish it. */
    method Bury(d: Arrival, error: Error, attempts: nat) returns (exit: Option<Exit>)
      requires Valid()
      modifies this`trace, counters`deadLettered, dlq
      ensures Reports(exit, C.Bury(Setup(), old(Now()), d, error, attempts))
    {
      hide DeadLetters.LetterOf, DeadLetters.IsDeadLetter, Valid, Footprint;
      hide Aggregation.OrderAggregator.Valid, OrderProcessor.Valid;
      counters.deadLettered := counters.deadLettered + 1;
      var raised := dlq.Publish(d.message, error, d.text, attempts, d.atMs, d.publication);
      if !d.publication.ProduceRaises? {
        trace := trace + [DeadLettered(FlushOf(d.publication))];
      }
      exit := if raised then Some(PublishFailed) else None;
    }

    /** `handle` one decoded order. */
    method Process(order: Order) returns (outcome: Result<Outcome>)
      requires Valid()
      modifies this`trace, processor, sink, aggregator.Repr()
      ensures Valid() && fresh(aggregator.Repr() - old(aggregator.Repr()))
      ensures var t := TrialOf(Setup().policy, Setup().respond, old(sink.calls), order);
        outcome == OutcomeOf(order, t) && (outcome.Ok? ==> order.price.Finite?) &&
        Now() == Attempted(old(Now()), t).(
          sales := if outcome.Ok? then old(aggregator.sales) + [Statistics.Sale(order.product, PriceOf(order))]
                   else old(aggregator.sales))
    {
      hide IsVerdict, Aggregation.OrderAggregator.Valid, TrialOf, Retries, Retry.PausesOf, Retry.WellFormed, Uniform;
      hide Trial.Calls, Trial.Pauses, Trial.Delivered;
      var pauses;
      outcome, pauses := processor.Handle(order);
      trace := trace + Retries(|pauses|);
    }

    /** The books of a processed order. */
    method CountProcessed(outcome: Outcome)
      requires Valid()
      modifies this`trace, counters, aggregates`sinceLast
      ensures Valid()
      ensures var b := old(Now());
        Now() == b.(processed := b.processed + 1,
                    retried := b.retried + (if outcome.attempts > 1 then 1 else 0),
                    pace := Cadence.Noted(b.pace),
                    trace := b.trace + [Accepted])
    {
      hide Shown, Aggregation.OrderAggregator.Valid, OrderProcessor.Valid;
      counters.processed := counters.processed + 1;
      if outcome.WasRetried() {
        counters.retried := counters.retried + 1;
      }
      aggregates.NoteProcessed();
      trace := trace + [Accepted];
    }

    /** `handle` one decoded order, and account for how it ended. */
    method DeliverOrder(d: Arrival, order: Order) returns (exit: Option<Exit>)
      requires Valid()
      modifies Footprint()
      ensures Valid() && fresh(Footprint() - old(Footprint())) && closed == old(closed)
      ensures Reports(exit, C.Deliver(Setup(), old(Now()), d, order)) && Unpublished()
    {
      hide Shown, Aggregation.OrderAggregator.Valid, OrderProcessor.Valid, TrialOf, C.Except;
      hide Retries, Retry.WellFormed, Uniform, Charged, PriceOf, Cadence.Noted;
      var outcome := Process(order);
      assert Valid() && Unpublished();
      if outcome.Ok? {
        CountProcessed(outcome.value);
        exit := None;
      } else {
        exit := Except(d, outcome.error);
      }
    }

    /** `_handle_message` */
    method HandleMessage(d: Arrival) returns (exit: Option<Exit>)
      requires Valid()
      modifies Footprint()
      ensures Valid() && fresh(Footprint() - old(Footprint())) && closed == old(closed)
      ensures Reports(exit, C.Handle(Setup(), old(Now()), d)) && Unpublished()
    {
      hide Shown, Aggregation.OrderAggregator.Valid, OrderProcessor.Valid, C.Deliver, C.Bury, Decode;
      var decoded := Decode(d.decoded);
      if decoded.Ok? {
        exit := DeliverOrder(d, decoded.value);
      } else if decoded.error == Deserialization {
        exit := Bury(d, decoded.error, 1);
      } else {
        exit := Some(DecodeEscaped);
      }
    }

    /** The `except` clauses around `handle`. */
    method Except(d: Arrival, error: Error) returns (exit: Option<Exit>)
      requires Valid()
      modifies this`trace, counters`deadLettered, dlq
      ensures Reports(exit, C.Except(Setup(), old(Now()), d, error))
    {
      hide DeadLetters.LetterOf, Valid, Footprint, Aggregation.OrderAggregator.Valid, OrderProcessor.Valid, C.Bury;
      if error.RetryExhausted? {
        exit := Bury(d, error, error.attempts);
      } else if error == Foreign {
        exit := Some(SinkEscaped);
      } else {
        exit := Bury(d, error, 1);
      }
    }

    /** A refused store is tolerated; anything else `store_offsets` raises is not. */
    method StoreOffset(d: Arrival) returns (raised: bool)
      modifies this`trace
      ensures raised == d.store.StoreRaises?
      ensures trace == old(trace) + (if raised then [] else [Stored(d.store.StoreDone?)])
    {
      if d.store.StoreRaises? {
        return true;
      }
      trace := trace + [Stored(d.store.StoreDone?)];
      return false;
    }

    method EmitSnapshot(force: bool, room: nat)
      requires Valid()
      modifies aggregates
      ensures Valid() && Now() == Emission(Setup(), old(Now()), force)
      ensures old(Shown()) ==> Shown()
    {
      aggregator.CountsEverySale();
      hide Aggregation.OrderAggregator.Valid, Cadence.Published, Aggregation.IsSnapshot;
      aggregates.Emit(aggregator, force, room);
      if old(Shown()) && aggregates.enabled && aggregates.rounds != old(aggregates.rounds) {
        var n := |old(aggregates.rounds)|;
        Cadence.PublishedSnoc(old(aggregates.rounds), old(aggregates.produced), aggregator.sales,
                      aggregates.rounds[n], aggregates.produced[|old(aggregates.produced)|]);
      }
    }

    /** Store the offset of a handled message, then maybe emit. */
    method FinishMessage(d: Arrival) returns (exit: Option<Exit>)
      requires Valid()
      modifies this`trace, aggregates
      ensures Valid()
      ensures Reports(exit, C.Finish(Setup(), old(Now()), d)) && (old(Shown()) ==> Shown())
    {
      hide Shown, Aggregation.OrderAggregator.Valid, OrderProcessor.Valid, Cadence.Emitted;
      var raised := StoreOffset(d);
      if raised {
        return Some(StoreFailed);
      }
      EmitSnapshot(false, d.room);
      return None;
    }

    /** Count a message that poll handed out. */
    method Arrive(m: DeadLetters.Message)
      requires Valid()
      modifies this`trace, counters`consumed
      ensures Valid() && Footprint() == old(Footprint())
      ensures Now() == C.Arrive(old(Now()), m)
    {
      hide Aggregation.OrderAggregator.Valid, OrderProcessor.Valid;
      counters.consumed := counters.consumed + 1;
      trace := trace + [Polled(m.partition, m.offset)];
    }

    /** What the loop does with one message. */
    method Receive(d: Arrival) returns (exit: Option<Exit>)
      requires Valid()
      modifies Footprint()
      ensures Valid() && fresh(Footprint() - old(Footprint())) && closed == old(closed)
      ensures Reports(exit, Turn(Setup(), old(Now()), Incoming(d))) && (old(Shown()) ==> Shown())
    {
      hide Shown, Aggregation.OrderAggregator.Valid, OrderProcessor.Valid, C.Handle, C.Finish, C.Arrive, Cadence.Emitted;
      Arrive(d.message);
      exit := HandleMessage(d);
      if old(Shown()) {
        UnpublishedStaysShown();
      }
      if exit == None {
        exit := FinishMessage(d);
      }
    }

    /** One turn of the loop. */
    method Step(input: Input) returns (exit: Option<Exit>)
      requires Valid()
      modifies Footprint()
      ensures Valid() && fresh(Footprint() - old(Footprint())) && closed == old(closed)
      ensures Reports(exit, Turn(Setup(), old(Now()), input)) && (old(Shown()) ==> Shown())
    {
      hide Shown, Aggregation.OrderAggregator.Valid, OrderProcessor.Valid, C.Handle, C.Finish, Cadence.Emitted;
      match input {
        case Nothing(room) =>
          EmitSnapshot(false, room);
          exit := None;
        case PollError(eof, fatal) =>
          exit := if !eof && fatal then Some(FatalError) else None;
        case PollRaises =>
          exit := Some(PollFailed);
        case Incoming(d) =>
          exit := Receive(d);
      }
    }

    /** Poll until the inputs end, which is when the shutdown flag is seen, or until something
        raises; then close. The books are those of the specified run. */
    method Run(inputs: seq<Input>, farewell: Farewell) returns (exit: Exit)
      requires Valid() && Now() == Opening(Setup()) && !closed && Shown()
      modifies Footprint()
      ensures Valid() && closed == !farewell.raises && Shown()
      ensures exit == LastExit(Loop(Setup(), inputs), farewell) && Now() == C.Run(Setup(), inputs)
      ensures exit == CloseFailed <==> farewell.raises
      ensures exit == Finished <==> Loop(Setup(), inputs).Going? && !farewell.raises
    {
      hide Shown, Aggregation.OrderAggregator.Valid, Uniform, Turn, Emission, Opening;
      exit := Finished;
      var i := 0;
      assert Loop(Setup(), inputs[..0]) == Going(Now());
      while i < |inputs| && exit == Finished
        invariant i <= |inputs| && Valid() && Shown() && !closed && fresh(Footprint() - old(Footprint()))
        invariant exit == ExitOf(Loop(Setup(), inputs[..i])) && Now() == Loop(Setup(), inputs[..i]).books
        invariant exit == Finished <==> Loop(Setup(), inputs[..i]).Going?
        invariant exit != CloseFailed
      {
        var turn := Step(inputs[i]);
        assert inputs[..i + 1][..i] == inputs[..i];
        i := i + 1;
        TurnExits(Setup(), Loop(Setup(), inputs[..i - 1]).books, inputs[i - 1]);
        exit := if turn.Some? then turn.value else Finished;
      }
      if exit != Finished {
        StaysStopped(Setup(), inputs, i);
      } else {
        assert inputs[..i] == inputs;
      }
      var raised := Close(farewell);
      exit := if raised then CloseFailed else exit;
    }

    /** `_close`: the final snapshot, a flush whose result is ignored like any other, and only then
        the commit. */
    method Close(farewell: Farewell) returns (raised: bool)
      requires Valid() && !closed
      modifies this`closed, aggregates, dlq`logged
      ensures Valid() && raised == farewell.raises && closed == !raised
      ensures dlq.logged == old(dlq.logged) + farewell.late
      ensures Now() == Emission(Setup(), old(Now()), true) && (old(Shown()) ==> Shown())
    {
      EmitSnapshot(true, farewell.room);
      FlushEgress(farewell.late);
      raised := farewell.raises;
      closed := !raised;
    }

    method FlushEgress(late: seq<Report>)
      modifies dlq`logged
      ensures dlq.logged == old(dlq.logged) + late
    {
      var i := 0;
      while i < |late|
        invariant i <= |late| && dlq.logged == old(dlq.logged) + late[..i]
      {
        dlq.OnDelivery(late[i]);
        i := i + 1;
      }
    }
  }

  /** The processor with its own sink and an empty aggregator. */
  method BuildProcessor(policy: Retry.RetryPolicy, respond: nat -> Response, uniform: (nat, real) -> real)
    returns (r: OrderProcessor)
    requires Retry.WellFormed(policy) && Uniform(uniform)
    ensures fresh(r) && fresh(r.sink) && fresh(r.aggregator.Repr()) && r.Valid()
    ensures r.policy == policy && r.sink.respond == respond
    ensures r.sink.Count() == Toll(0, 0, 0, 0) && r.aggregator.sales == []
  {
    hide Retry.WellFormed, Uniform;
    var sink := new Sink(respond);
    var aggregator := new Aggregation.OrderAggregator();
    r := new OrderProcessor(aggregator, sink, policy, uniform);
  }

  /** The app with all its parts, as it starts. */
  method BuildApp(policy: Retry.RetryPolicy, respond: nat -> Response, uniform: (nat, real) -> real,
                  codec: DeadLetters.Codec, dlqTopic: string, group: string, host: string,
                  everyN: nat, interval: real, clock: nat -> real, publishAggregates: bool)
    returns (app: ConsumerApp)
    requires Retry.WellFormed(policy) && Uniform(uniform) && 1 <= everyN && 0.0 < interval
    ensures app.Valid() && fresh(app) && fresh(app.Footprint()) && !app.closed && app.Shown()
    ensures app.Setup() ==
      Config(policy, respond, codec, dlqTopic, group, host, Cadence.Settings(everyN, interval, clock))
    ensures app.Now() == Opening(app.Setup())
  {
    hide OrderProcessor.Valid, Aggregation.OrderAggregator.Valid, Retry.WellFormed, Uniform, Cadence.Shows;
    var dlq := new DeadLetters.DeadLetterPublisher(codec, dlqTopic, group, host);
    var aggregates := new Cadence.AggregatePublisher(everyN, interval, clock, publishAggregates);
    var processor := BuildProcessor(policy, respond, uniform);
    app := new ConsumerApp(processor, dlq, aggregates);
  }

  /** A turn that stops the loop never reports a normal end. */
  lemma TurnExits(cfg: Config, b: Books, input: Input)
    requires 1 <= cfg.policy.maxAttempts
    ensures Turn(cfg, b, input).Stopped? ==> Turn(cfg, b, input).exit != Finished && Turn(cfg, b, input).exit != CloseFailed
  {
    hide Decode, TrialOf, DeadLetters.LetterOf;
  }
}
