/** When snapshots go out (`AggregatePublisher` in apps/consumer.py). */
module Cadence {
  import Statistics
  import opened Aggregation

  /** One emission: how many orders it newly covers, the ALL count it shows, and when it was made. */
  datatype Round = Round(forced: bool, covered: nat, total: nat, at: real)

  /** The publisher's state: orders since the last emission, its clock reading, readings taken so
      far, and every emission made. */
  datatype Pace = Pace(sinceLast: nat, lastEmit: real, ticks: nat, rounds: seq<Round>)

  datatype Settings = Settings(everyN: nat, interval: real, clock: nat -> real)

  /** `due()` reads the clock only when the count alone does not decide. */
  function TicksOfDue(c: Settings, p: Pace): nat {
    if p.sinceLast < c.everyN && 0 < p.sinceLast then 1 else 0
  }

  predicate Due(c: Settings, p: Pace) {
    c.everyN <= p.sinceLast || (0 < p.sinceLast && c.clock(p.ticks) - p.lastEmit >= c.interval)
  }

  /** The state after `emit`, for an aggregator of `count` orders. */
  function Emitted(c: Settings, p: Pace, force: bool, count: nat): Pace {
    var ticks := p.ticks + (if force then 0 else TicksOfDue(c, p));
    if (!force && !Due(c, p)) || count == 0 then p.(ticks := ticks)
    else Pace(0, c.clock(ticks), ticks + 1, p.rounds + [Round(force, p.sinceLast, count, c.clock(ticks))])
  }

  function Noted(p: Pace): Pace {
    p.(sinceLast := p.sinceLast + 1)
  }

  /** What one call of `emit` does, reading by reading. It emits exactly if something was ever processed
      and it is forced, a full batch is pending, or something is and the interval has passed at the next
      reading of the clock. The round then covers everything pending and is timed by a reading of its
      own, from which the next interval counts; otherwise nothing but the reading happens. */
  lemma EmitsExactly(c: Settings, p: Pace, force: bool, count: nat)
    ensures var q := Emitted(c, p, force, count);
      var asked := !force && 0 < p.sinceLast < c.everyN;
      var due := force || c.everyN <= p.sinceLast || (0 < p.sinceLast && p.lastEmit + c.interval <= c.clock(p.ticks));
      if due && 0 < count then
        q.ticks == p.ticks + (if asked then 2 else 1) && q.sinceLast == 0 && q.lastEmit == c.clock(q.ticks - 1) &&
        q.rounds == p.rounds + [Round(force, p.sinceLast, count, c.clock(q.ticks - 1))]
      else
        q.ticks == p.ticks + (if asked then 1 else 0) && q.sinceLast == p.sinceLast && q.lastEmit == p.lastEmit &&
        q.rounds == p.rounds
  {
  }

  /** After an unforced `emit` the publisher is up to date: nothing is pending, or less than a batch is
      and a reading taken in this very call showed less than the interval; and if the clock had passed
      the interval with something pending, a round was added that shows every processed order. */
  predicate UpToDate(c: Settings, before: Pace, after: Pace, count: nat) {
    (after.sinceLast == 0 ||
     (after.sinceLast < c.everyN && after.ticks == before.ticks + 1 &&
      c.clock(before.ticks) - after.lastEmit < c.interval)) &&
    (if c.everyN <= before.sinceLast || (0 < before.sinceLast && before.lastEmit + c.interval <= c.clock(before.ticks))
     then after.sinceLast == 0 && |after.rounds| == |before.rounds| + 1 && after.rounds[..|before.rounds|] == before.rounds &&
       after.rounds[|before.rounds|].total == count && after.rounds[|before.rounds|].covered == before.sinceLast &&
       !after.rounds[|before.rounds|].forced
     else after.rounds == before.rounds && after.sinceLast == before.sinceLast && after.lastEmit == before.lastEmit)
  }

  lemma EmitBringsUpToDate(c: Settings, p: Pace, count: nat)
    requires 1 <= c.everyN && p.sinceLast <= count
    ensures UpToDate(c, p, Emitted(c, p, false, count), count)
  {
    EmitsExactly(c, p, false, count);
  }

  // ---- the books ----

  function TotalCovered(rounds: seq<Round>): nat {
    if rounds == [] then 0 else TotalCovered(rounds[..|rounds| - 1]) + rounds[|rounds| - 1].covered
  }

  function Unforced(rounds: seq<Round>): nat {
    if rounds == [] then 0
    else Unforced(rounds[..|rounds| - 1]) + (if rounds[|rounds| - 1].forced then 0 else 1)
  }

  /** Emissions cover the processed orders without gap or overlap: past emissions plus pending are
      all of them, each shows exactly what was covered up to it, which is never nothing, and an unforced
      one covers some. */
  predicate Booked(p: Pace, processed: nat) {
    TotalCovered(p.rounds) + p.sinceLast == processed &&
    forall i :: 0 <= i < |p.rounds| ==>
      p.rounds[i].total == TotalCovered(p.rounds[..i + 1]) && 1 <= p.rounds[i].total &&
      (!p.rounds[i].forced ==> 1 <= p.rounds[i].covered)
  }

  lemma CoveredSnoc(rounds: seq<Round>, round: Round)
    ensures TotalCovered(rounds + [round]) == TotalCovered(rounds) + round.covered
  {
    assert (rounds + [round])[..|rounds|] == rounds;
  }

  lemma RoundKeepsBooks(p: Pace, q: Pace, round: Round, processed: nat)
    requires Booked(p, processed) && q.rounds == p.rounds + [round] && q.sinceLast == 0
    requires round.covered == p.sinceLast && round.total == processed && 1 <= processed && (!round.forced ==> 1 <= round.covered)
    ensures Booked(q, processed)
  {
    hide TotalCovered;
    var n := |p.rounds|;
    CoveredSnoc(p.rounds, round);
    assert q.rounds[..n + 1] == q.rounds;
    forall i | 0 <= i < n ensures q.rounds[i] == p.rounds[i] && q.rounds[..i + 1] == p.rounds[..i + 1] {}
  }

  lemma EmitKeepsBooks(c: Settings, p: Pace, force: bool, processed: nat)
    requires 1 <= c.everyN && Booked(p, processed)
    ensures Booked(Emitted(c, p, force, processed), processed)
  {
    hide Booked, TotalCovered;
    var q := Emitted(c, p, force, processed);
    if q.rounds != p.rounds {
      RoundKeepsBooks(p, q, q.rounds[|p.rounds|], processed);
    } else {
      SameRoundsSameBooks(p, q, processed);
    }
  }

  lemma SameRoundsSameBooks(p: Pace, q: Pace, processed: nat)
    requires Booked(p, processed) && q.rounds == p.rounds && q.sinceLast == p.sinceLast
    ensures Booked(q, processed)
  {
  }

  lemma NoteKeepsBooks(p: Pace, processed: nat)
    requires Booked(p, processed)
    ensures Booked(Noted(p), processed + 1)
  {
  }

  /** Heartbeat: when an unforced `emit` returns, nothing is pending, or fewer than `everyN` are and
      at the reading it used the interval had not passed; an empty aggregator never suppresses one. */
  lemma Heartbeat(c: Settings, p: Pace, processed: nat)
    requires 1 <= c.everyN && Booked(p, processed)
    ensures var q := Emitted(c, p, false, processed);
      q.sinceLast == 0 ||
      (q.sinceLast < c.everyN && q.rounds == p.rounds && q.ticks == p.ticks + 1 &&
       c.clock(p.ticks) - q.lastEmit < c.interval)
  {
  }

  ghost predicate NeverBack(clock: nat -> real) {
    forall i: nat, j: nat :: i <= j ==> clock(i) <= clock(j)
  }

  /** At a loop head: nothing is pending, or fewer than `everyN` orders are and at the last reading
      of the clock less than the interval had passed since the last emission. */
  predicate Timely(c: Settings, p: Pace) {
    1 <= p.ticks && p.sinceLast < c.everyN &&
    (p.sinceLast == 0 || c.clock(p.ticks - 1) - p.lastEmit < c.interval)
  }

  lemma EmitIsTimely(c: Settings, p: Pace, processed: nat)
    requires 1 <= c.everyN && 1 <= p.ticks && Booked(p, processed)
    ensures Timely(c, Emitted(c, p, false, processed))
  {
    Heartbeat(c, p, processed);
  }

  /** When the round before the `i`-th was made; before the first, when the app started. */
  function PreviousAt(c: Settings, rounds: seq<Round>, i: nat): real
    requires i <= |rounds|
  {
    if i == 0 then c.clock(0) else rounds[i - 1].at
  }

  /** One round keeps its distance from `before`. */
  predicate Apart(c: Settings, before: real, round: Round) {
    before <= round.at &&
    (round.forced || c.everyN <= round.covered || before + c.interval <= round.at)
  }

  /** Rate limit: each unforced emission of the run covers a full batch, or comes a full interval
      after the one before it; and times never go back. */
  predicate Spaced(c: Settings, p: Pace) {
    1 <= p.ticks && PreviousAt(c, p.rounds, |p.rounds|) == p.lastEmit <= c.clock(p.ticks - 1) &&
    forall i :: 0 <= i < |p.rounds| ==> Apart(c, PreviousAt(c, p.rounds, i), p.rounds[i])
  }

  lemma RoundKeepsSpacing(c: Settings, p: Pace, q: Pace, round: Round)
    requires Spaced(c, p) && q.rounds == p.rounds + [round] && q.lastEmit == round.at
    requires Apart(c, p.lastEmit, round) && 1 <= q.ticks && round.at <= c.clock(q.ticks - 1)
    ensures Spaced(c, q)
  {
    hide Apart;
    forall i | 0 <= i < |q.rounds| ensures Apart(c, PreviousAt(c, q.rounds, i), q.rounds[i]) {
      if i < |p.rounds| {
        assert Apart(c, PreviousAt(c, p.rounds, i), p.rounds[i]);
      }
    }
  }

  lemma EmitKeepsSpacing(c: Settings, p: Pace, force: bool, processed: nat)
    requires NeverBack(c.clock) && Spaced(c, p)
    ensures Spaced(c, Emitted(c, p, force, processed))
  {
    var q := Emitted(c, p, force, processed);
    LastReading(c, p);
    hide Spaced, NeverBack;
    if q.rounds != p.rounds {
      RoundKeepsSpacing(c, p, q, q.rounds[|p.rounds|]);
    } else {
      WaitKeepsSpacing(c, p, q);
    }
  }

  lemma LastReading(c: Settings, p: Pace)
    requires NeverBack(c.clock) && Spaced(c, p)
    ensures 1 <= p.ticks && p.lastEmit <= c.clock(p.ticks - 1) <= c.clock(p.ticks) <= c.clock(p.ticks + 1)
  {
  }

  lemma WaitKeepsSpacing(c: Settings, p: Pace, q: Pace)
    requires Spaced(c, p) && q.rounds == p.rounds && q.lastEmit == p.lastEmit
    requires 1 <= q.ticks && p.lastEmit <= c.clock(q.ticks - 1)
    ensures Spaced(c, q)
  {
  }

  lemma {:induction false} CoveredSplits(rounds: seq<Round>, i: nat, j: nat)
    requires i <= j <= |rounds|
    ensures TotalCovered(rounds[..i]) <= TotalCovered(rounds[..j])
    decreases j
  {
    if i < j {
      assert rounds[..j][..j - 1] == rounds[..j - 1];
      CoveredSplits(rounds, i, j - 1);
    }
  }

  /** The ALL count strictly increases from one unforced emission to every later one. */
  lemma TotalsIncrease(p: Pace, processed: nat, i: nat, j: nat)
    requires Booked(p, processed) && i < j < |p.rounds|
    ensures p.rounds[i].total <= p.rounds[j].total <= processed
    ensures !p.rounds[j].forced ==> p.rounds[i].total < p.rounds[j].total
  {
    assert p.rounds[..j + 1][..j] == p.rounds[..j];
    CoveredSplits(p.rounds, i + 1, j);
    CoveredSplits(p.rounds, j + 1, |p.rounds|);
    assert p.rounds[..|p.rounds|] == p.rounds;
  }

  /** There are never more unforced emissions than processed orders. */
  lemma EmissionsAreBounded(p: Pace, processed: nat)
    requires Booked(p, processed)
    ensures Unforced(p.rounds) <= processed
  {
    UnforcedWithinCovered(p.rounds);
  }

  lemma {:induction false} UnforcedWithinCovered(rounds: seq<Round>)
    requires forall i :: 0 <= i < |rounds| && !rounds[i].forced ==> 1 <= rounds[i].covered
    ensures Unforced(rounds) <= TotalCovered(rounds)
  {
    if rounds != [] {
      UnforcedWithinCovered(rounds[..|rounds| - 1]);
    }
  }

  /** The forced snapshot of a non-empty run shows every processed order and leaves none pending. */
  lemma FinalSnapshotIsComplete(c: Settings, p: Pace, processed: nat)
    requires 1 <= c.everyN && Booked(p, processed) && 0 < processed
    ensures var q := Emitted(c, p, true, processed);
      q.sinceLast == 0 && |q.rounds| == |p.rounds| + 1 && q.rounds[|p.rounds|].total == processed &&
      TotalCovered(q.rounds) == processed
  {
    EmitKeepsBooks(c, p, true, processed);
  }

  // ---- what is published ----

  /** The beginning of a snapshot of these orders: all of it, unless the queue was full. */
  ghost predicate Shows(list: seq<Record>, sales: seq<Statistics.Sale>) {
    exists records :: IsSnapshot(records, sales) && list <= records
  }

  /** Each list published shows exactly the orders processed up to its round. */
  ghost predicate Published(rounds: seq<Round>, produced: seq<seq<Record>>, sales: seq<Statistics.Sale>) {
    |produced| == |rounds| &&
    forall i :: 0 <= i < |rounds| ==> rounds[i].total <= |sales| && Shows(produced[i], sales[..rounds[i].total])
  }

  lemma PublishedGrows(rounds: seq<Round>, produced: seq<seq<Record>>, sales: seq<Statistics.Sale>,
                       more: seq<Statistics.Sale>)
    requires Published(rounds, produced, sales) && sales <= more
    ensures Published(rounds, produced, more)
  {
    hide Shows;
    forall i | 0 <= i < |rounds| ensures more[..rounds[i].total] == sales[..rounds[i].total] {}
  }

  lemma PublishedSnoc(rounds: seq<Round>, produced: seq<seq<Record>>, sales: seq<Statistics.Sale>,
                      round: Round, list: seq<Record>)
    requires Published(rounds, produced, sales) && round.total == |sales| && Shows(list, sales)
    ensures Published(rounds + [round], produced + [list], sales)
  {
    hide Shows;
    assert sales[..|sales|] == sales;
  }

  // ---- the publisher ----

  class AggregatePublisher {
    const settings: Settings
    const enabled: bool
    var sinceLast: nat
    var lastEmit: real
    var ticks: nat
    /** What reached the producer, one list per emission. */
    var produced: seq<seq<Record>>
    ghost var rounds: seq<Round>

    constructor (everyN: nat, interval: real, clock: nat -> real, enabled: bool)
      requires 1 <= everyN && 0.0 < interval
      ensures settings == Settings(everyN, interval, clock) && this.enabled == enabled
      ensures Now() == Pace(0, clock(0), 1, []) && produced == []
    {
      settings := Settings(everyN, interval, clock);
      this.enabled := enabled;
      sinceLast, lastEmit, ticks := 0, clock(0), 1;
      produced, rounds := [], [];
    }

    ghost function Now(): Pace
      reads this
    {
      Pace(sinceLast, lastEmit, ticks, rounds)
    }

    /** time.monotonic() */
    method Read() returns (now: real)
      modifies this`ticks
      ensures now == settings.clock(old(ticks)) && ticks == old(ticks) + 1
    {
      now := settings.clock(ticks);
      ticks := ticks + 1;
    }

    method NoteProcessed()
      modifies this`sinceLast
      ensures Now() == Noted(old(Now()))
    {
      sinceLast := sinceLast + 1;
    }

    method IsDue() returns (due: bool)
      modifies this`ticks
      ensures due == Due(settings, old(Now()))
      ensures ticks == old(ticks) + TicksOfDue(settings, old(Now()))
    {
      if settings.everyN <= sinceLast {
        return true;
      }
      if 0 < sinceLast {
        var now := Read();
        return now - lastEmit >= settings.interval;
      }
      return false;
    }

    /** `room` is how many records the producer's queue takes before it is full. */
    method Emit(aggregator: OrderAggregator, force: bool, room: nat)
      requires aggregator.Valid() && (this as object) !in aggregator.Repr()
      modifies this
      ensures Now() == Emitted(settings, old(Now()), force, aggregator.Count())
      ensures rounds == old(rounds) || !enabled ==> produced == old(produced)
      ensures rounds != old(rounds) && enabled ==>
        exists records :: IsSnapshot(records, aggregator.sales) &&
          produced == old(produced) + [records[..if room < |records| then room else |records|]]
    {
      hide IsSnapshot, OrderAggregator.Valid;
      if !force {
        var due := IsDue();
        if !due {
          return;
        }
      }
      if aggregator.Count() == 0 {
        return;
      }
      ghost var covered := sinceLast;
      sinceLast := 0;
      lastEmit := Read();
      rounds := rounds + [Round(force, covered, aggregator.Count(), lastEmit)];
      if enabled {
        var records := aggregator.Snapshots();
        Produce(records, room);
      }
    }

    /** Hand the records over one by one, until the queue is full. */
    method Produce(records: seq<Record>, room: nat)
      modifies this`produced
      ensures produced == old(produced) + [records[..if room < |records| then room else |records|]]
    {
      var sent := [];
      var i := 0;
      while i < |records| && i != room
        invariant i <= |records| && i <= room && sent == records[..i]
      {
        sent := sent + [records[i]];
        i := i + 1;
      }
      produced := produced + [sent];
    }
  }
}
