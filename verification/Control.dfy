/** One consumer's control flow between two polls (apps/consumer.py, `run` and `_handle_message`).
    The group protocol in `Delivery` moves a consumer only along these transitions, and the
    imperative `ConsumerApp` proves that its own trace is made of nothing else. */
module Control {

  /** Where the loop body stands: at the loop head, delivering a message, or past a terminal state. */
  datatype Phase =
    | Idle
    | Trying(partition: nat, offset: nat, attempt: nat)
    | Settled(partition: nat, offset: nat)

  /** What the producer's delivery report says of a letter by the time `flush` is over. */
  datatype Report = Delivered | Failed | Queued

  /** The end of one `flush`: the letter's report, and how many other messages (snapshots use the
      same producer) are still queued. The code looks at neither. */
  datatype Flush = Flush(others: nat, report: Report) {
    /** What `flush` returns. */
    function Remaining(): nat { others + if report.Queued? then 1 else 0 }
  }

  /** `flush` returns zero exactly if nothing else is queued and the letter has its report, good or bad. */
  lemma ReturnsZeroExactly(f: Flush)
    ensures f.Remaining() == 0 <==> f.others == 0 && (f.report.Delivered? || f.report.Failed?)
  {
  }

  /** What one consumer does that the rest of the group can notice. */
  datatype Act =
    | Polled(partition: nat, offset: nat)
    | Retried
    | Accepted
    | DeadLettered(flush: Flush)
    | Stored(accepted: bool)

  predicate Terminal(act: Act) {
    act.Accepted? || act.DeadLettered?
  }

  predicate Allowed(budget: nat, phase: Phase, act: Act) {
    match act
    case Polled(_, _) => phase.Idle?
    case Retried => phase.Trying? && phase.attempt < budget
    case Accepted => phase.Trying?
    case DeadLettered(_) => phase.Trying?
    case Stored(_) => phase.Settled?
  }

  function After(budget: nat, phase: Phase, act: Act): Phase
    requires Allowed(budget, phase, act)
  {
    match act
    case Polled(p, o) => Trying(p, o, 1)
    case Retried => phase.(attempt := phase.attempt + 1)
    case Accepted => Settled(phase.partition, phase.offset)
    case DeadLettered(_) => Settled(phase.partition, phase.offset)
    case Stored(_) => Idle
  }

  /** The trace can be taken from the loop head, step by step. */
  predicate Follows(budget: nat, trace: seq<Act>)
    decreases |trace|, 0
  {
    trace == [] ||
    (Follows(budget, trace[..|trace| - 1]) &&
     Allowed(budget, Reached(budget, trace[..|trace| - 1]), trace[|trace| - 1]))
  }

  function Reached(budget: nat, trace: seq<Act>): Phase
    requires Follows(budget, trace)
    decreases |trace|, 1
  {
    if trace == [] then Idle
    else After(budget, Reached(budget, trace[..|trace| - 1]), trace[|trace| - 1])
  }

  lemma FollowsSnoc(budget: nat, trace: seq<Act>, act: Act)
    requires Follows(budget, trace)
    requires Allowed(budget, Reached(budget, trace), act)
    ensures Follows(budget, trace + [act])
    ensures Reached(budget, trace + [act]) == After(budget, Reached(budget, trace), act)
  {
    assert (trace + [act])[..|trace|] == trace;
  }

  // ---- what a trace of the loop looks like ----

  /** From `k` up to `end`: the poll of `(p, o)`, followed by nothing but retries. */
  predicate PolledAndRetried(trace: seq<Act>, k: nat, end: nat, p: nat, o: nat) {
    k < end <= |trace| && trace[k] == Polled(p, o) &&
    forall i :: k < i < end ==> trace[i] == Retried
  }

  /** At `end`, one message was polled and attempted at most `budget` times. */
  predicate TriedWithin(budget: nat, trace: seq<Act>, end: nat, p: nat, o: nat) {
    exists k :: 0 <= k < end && end - k <= budget && PolledAndRetried(trace, k, end, p, o)
  }

  /** The phase a trace reaches tells how the trace ends. */
  lemma {:induction false} PhaseTellsTrace(budget: nat, trace: seq<Act>)
    requires 1 <= budget && Follows(budget, trace)
    ensures match Reached(budget, trace)
      case Idle => trace == [] || trace[|trace| - 1].Stored?
      case Trying(p, o, n) => 1 <= n <= budget && n <= |trace| && PolledAndRetried(trace, |trace| - n, |trace|, p, o)
      case Settled(p, o) =>
        trace != [] && Terminal(trace[|trace| - 1]) && TriedWithin(budget, trace, |trace| - 1, p, o)
    decreases |trace|
  {
    if trace != [] {
      var before := trace[..|trace| - 1];
      PhaseTellsTrace(budget, before);
      if Terminal(trace[|trace| - 1]) {
        var was := Reached(budget, before);
        assert PolledAndRetried(trace, |before| - was.attempt, |trace| - 1, was.partition, was.offset);
      }
    }
  }

  lemma {:induction false} PrefixFollows(budget: nat, trace: seq<Act>, i: nat)
    requires Follows(budget, trace) && i <= |trace|
    ensures Follows(budget, trace[..i])
    ensures i < |trace| ==> Allowed(budget, Reached(budget, trace[..i]), trace[i])
    decreases |trace|
  {
    if i == |trace| {
      assert trace[..i] == trace;
    } else {
      var before := trace[..|trace| - 1];
      assert before[..i] == trace[..i];
      PrefixFollows(budget, before, i);
    }
  }

  /** No offset is stored before its message reached a terminal state. Before every `Stored` come,
      without a gap, the poll of one message, its retries, and its terminal state; and it is that
      message's offset that is stored. */
  lemma StoreFollowsTerminalState(budget: nat, trace: seq<Act>, i: nat)
    requires 1 <= budget && Follows(budget, trace)
    requires i < |trace| && trace[i].Stored?
    ensures 0 < i && Terminal(trace[i - 1])
    ensures Follows(budget, trace[..i]) && Reached(budget, trace[..i]).Settled?
    ensures var at := Reached(budget, trace[..i]); TriedWithin(budget, trace, i - 1, at.partition, at.offset)
  {
    PrefixFollows(budget, trace, i);
    PhaseTellsTrace(budget, trace[..i]);
    var at := Reached(budget, trace[..i]);
    var k :| 0 <= k < i - 1 && i - 1 - k <= budget && PolledAndRetried(trace[..i], k, i - 1, at.partition, at.offset);
    assert PolledAndRetried(trace, k, i - 1, at.partition, at.offset);
  }

  function RetriesIn(trace: seq<Act>): nat {
    if trace == [] then 0
    else RetriesIn(trace[..|trace| - 1]) + if trace[|trace| - 1].Retried? then 1 else 0
  }

  /** The retries since the last poll. */
  function RetriesSince(trace: seq<Act>): nat {
    if trace == [] || trace[|trace| - 1].Polled? then 0
    else RetriesSince(trace[..|trace| - 1]) + if trace[|trace| - 1].Retried? then 1 else 0
  }

  lemma {:induction false} SinceWithinBudget(budget: nat, trace: seq<Act>)
    requires 1 <= budget && Follows(budget, trace)
    ensures RetriesSince(trace) < budget
    ensures Reached(budget, trace).Trying? ==> RetriesSince(trace) + 1 == Reached(budget, trace).attempt
    decreases |trace|
  {
    if trace != [] {
      SinceWithinBudget(budget, trace[..|trace| - 1]);
    }
  }

  lemma {:induction false} StretchSince(trace: seq<Act>, i: nat)
    requires i <= |trace| && forall k :: i <= k < |trace| ==> !trace[k].Polled?
    ensures RetriesIn(trace[i..]) <= RetriesSince(trace)
    decreases |trace|
  {
    if i < |trace| {
      var before := trace[..|trace| - 1];
      StretchSince(before, i);
      assert trace[i..][..|trace[i..]| - 1] == before[i..];
    }
  }

  /** In any stretch of the trace without a new poll there are fewer than `budget` retries: with the
      attempt that follows the poll itself, at most `budget` attempts. */
  lemma AttemptsWithinBudget(budget: nat, trace: seq<Act>, i: nat, j: nat)
    requires 1 <= budget && Follows(budget, trace) && i <= j <= |trace|
    requires forall k :: i <= k < j ==> !trace[k].Polled?
    ensures RetriesIn(trace[i..j]) + 1 <= budget
  {
    PrefixFollows(budget, trace, j);
    SinceWithinBudget(budget, trace[..j]);
    StretchSince(trace[..j], i);
    assert trace[..j][i..] == trace[i..j];
  }

  /** A larger budget allows whatever a smaller one does. */
  lemma {:induction false} LargerBudgetFollows(budget: nat, larger: nat, trace: seq<Act>)
    requires budget <= larger && Follows(budget, trace)
    ensures Follows(larger, trace) && Reached(larger, trace) == Reached(budget, trace)
    decreases |trace|
  {
    if trace != [] {
      LargerBudgetFollows(budget, larger, trace[..|trace| - 1]);
    }
  }
}
