/** Safety over whole runs of the group: nothing below a commit is lost, commits never go back,
    every assignment settles one contiguous slice in order, and replays are counted exactly. */
module Replay {
  import opened Control
  import opened Delivery

  // ---- nothing is lost ----

  predicate Concerns(h: Handling, p: nat, o: nat) {
    h.partition == p && h.offset == o
  }

  /** The order reached the sink, or the dead letter topic holds its letter. */
  predicate Durable(s: Group, p: nat, o: nat) {
    exists i :: 0 <= i < |s.history| && Concerns(s.history[i], p, o) && (s.history[i].sunk || i in s.acked)
  }

  predicate LetterAt(s: Group, h: nat) {
    h < |s.history| && !s.history[h].sunk
  }

  /** Only letters are acknowledged or queued, and none is both. */
  predicate LettersOk(s: Group) {
    (forall h :: h in s.acked ==> LetterAt(s, h)) && (forall h :: h in s.pending ==> LetterAt(s, h)) &&
    s.acked !! s.pending
  }

  lemma StepKeepsLetters(s: Group, l: Label)
    requires LettersOk(s) && Enabled(s, l)
    ensures LettersOk(Next(s, l))
  {
    hide Dropped, Settle;
  }

  predicate InHandOf(s: Group, c: nat, p: nat, o: nat) {
    c < |s.workers| && s.workers[c].phase.Trying? &&
    s.workers[c].phase.partition == p && s.workers[c].phase.offset == o
  }

  /** The step puts offset `o` where it cannot be lost: the sink accepts it, its letter is reported
      delivered before `publish` returns, or a letter still queued is acknowledged later. */
  predicate Secures(s: Group, l: Label, p: nat, o: nat) {
    match l
    case Do(c, act) =>
      InHandOf(s, c, p, o) && (act.Accepted? || (act.DeadLettered? && act.flush.report.Delivered?))
    case Ack(h) => h < |s.history| && Concerns(s.history[h], p, o)
    case _ => false
  }

  predicate Secured(s: Group, run: seq<Label>, p: nat, o: nat)
    requires Legal(s, run)
    decreases |run|
  {
    run != [] && (Secures(s, run[0], p, o) || Secured(Next(s, run[0]), run[1..], p, o))
  }

  lemma DoSecures(s: Group, c: nat, act: Act, p: nat, o: nat)
    requires LettersOk(s) && CanDo(s, c, act)
    ensures Durable(Doing(s, c, act), p, o) <==> Durable(s, p, o) || Secures(s, Do(c, act), p, o)
  {
    var t := Doing(s, c, act);
    var n := |s.history|;
    assert forall i :: 0 <= i < n ==> t.history[i] == s.history[i] && (i in t.acked <==> i in s.acked);
    assert Terminal(act) ==> Concerns(t.history[n], p, o) == InHandOf(s, c, p, o);
  }

  lemma StepSecures(s: Group, l: Label, p: nat, o: nat)
    requires LettersOk(s) && Enabled(s, l)
    ensures Durable(Next(s, l), p, o) <==> Durable(s, p, o) || Secures(s, l, p, o)
  {
    hide Dropped, Settle, Doing, Concerns, InHandOf, CanDo;
    match l {
      case Do(c, act) => DoSecures(s, c, act, p, o);
      case Ack(h) => assert Next(s, l).history == s.history;
      case _ => assert Next(s, l).history == s.history && Next(s, l).acked == s.acked;
    }
  }

  /** Exactly what makes an offset durable, over any run: it is if and only if some step of the run
      secured it (or it already was). Nothing else helps, and nothing undoes it. */
  lemma {:induction false} DurableExactly(s: Group, run: seq<Label>, p: nat, o: nat)
    requires LettersOk(s) && Legal(s, run)
    ensures Durable(Exec(s, run), p, o) <==> Durable(s, p, o) || Secured(s, run, p, o)
    decreases |run|
  {
    if run != [] {
      hide Durable, Secures, LettersOk;
      StepKeepsLetters(s, run[0]);
      StepSecures(s, run[0], p, o);
      DurableExactly(Next(s, run[0]), run[1..], p, o);
    }
  }

  /** The message is dead-lettered in this step, and its letter is not reported delivered. */
  predicate Unconfirmed(s: Group, l: Label, p: nat, o: nat) {
    l.Do? && InHandOf(s, l.c, p, o) && l.act.DeadLettered? && !l.act.flush.report.Delivered?
  }

  predicate Confirmed(s: Group, run: seq<Label>, p: nat, o: nat)
    requires Legal(s, run)
    decreases |run|
  {
    run == [] || (!Unconfirmed(s, run[0], p, o) && Confirmed(Next(s, run[0]), run[1..], p, o))
  }

  lemma StepHandles(s: Group, l: Label, p: nat, o: nat)
    requires Enabled(s, l) && Handled(Next(s, l).history, p, o)
    ensures Handled(s.history, p, o) || Secures(s, l, p, o) || Unconfirmed(s, l, p, o)
  {
    hide Dropped, Settle;
    var t := Next(s, l);
    var i :| 0 <= i < |t.history| && t.history[i].partition == p && t.history[i].offset == o;
    if i < |s.history| {
      assert t.history[i] == s.history[i];
    }
  }

  lemma {:induction false} HandledIsSecured(s: Group, run: seq<Label>, p: nat, o: nat)
    requires Legal(s, run) && Confirmed(s, run, p, o)
    requires Handled(Exec(s, run).history, p, o)
    ensures Handled(s.history, p, o) || Secured(s, run, p, o)
    decreases |run|
  {
    if run != [] {
      hide Handled, Secures, Unconfirmed;
      HandledIsSecured(Next(s, run[0]), run[1..], p, o);
      if Handled(Next(s, run[0]).history, p, o) {
        StepHandles(s, run[0], p, o);
      }
    }
  }

  /** Without any premise: below the committed offset everything was accepted by the sink or
      handed to the DLQ producer. */
  lemma CommittedIsTerminal(s: Group, run: seq<Label>, p: nat, o: nat)
    requires Initial(s) && Legal(s, run) && p < |s.origin|
    requires s.origin[p] <= o
    ensures var t := Exec(s, run);
      |t.committed| == |s.origin| && (o < t.committed[p] ==> Handled(t.history, p, o))
  {
    InitialInv(s);
    RunKeepsInv(s, run);
    KeepsOrigin(s, run);
    var t := Exec(s, run);
    assert CoveredTo(t, p, t.committed[p]);
  }

  lemma {:induction false} KeepsOrigin(s: Group, run: seq<Label>)
    requires Legal(s, run)
    ensures Exec(s, run).origin == s.origin && Exec(s, run).budget == s.budget
    ensures |Exec(s, run).workers| == |s.workers|
    decreases |run|
  {
    if run != [] {
      KeepsOrigin(Next(s, run[0]), run[1..]);
    }
  }

  /** At-least-once, offset by offset: if every dead letter of `(p, o)` is reported delivered, the
      message below the committed offset is in the sink or in the dead letter topic, whatever
      crashes, revocations, refused stores, commits and other failed letters the run contains. */
  lemma NothingIsLost(s: Group, run: seq<Label>, p: nat, o: nat)
    requires Initial(s) && Legal(s, run) && Confirmed(s, run, p, o) && p < |s.origin|
    requires s.origin[p] <= o
    ensures var t := Exec(s, run);
      |t.committed| == |s.origin| && (o < t.committed[p] ==> Durable(t, p, o))
  {
    hide Durable, Handled, LettersOk;
    CommittedIsTerminal(s, run, p, o);
    StartsEmpty(s, p, o);
    DurableExactly(s, run, p, o);
    if o < Exec(s, run).committed[p] {
      HandledIsSecured(s, run, p, o);
    }
  }

  lemma StartsEmpty(s: Group, p: nat, o: nat)
    requires Initial(s)
    ensures LettersOk(s) && !Handled(s.history, p, o) && !Durable(s, p, o)
  {
  }

  /** Exactly which committed messages are safe, in any run: those some step of it secured. The rest
      were all dead-lettered with a letter that was not reported delivered. */
  lemma CommitIsSafeExactly(s: Group, run: seq<Label>, p: nat, o: nat)
    requires Initial(s) && Legal(s, run) && p < |s.origin|
    requires |Exec(s, run).committed| == |s.origin| && s.origin[p] <= o < Exec(s, run).committed[p]
    ensures Durable(Exec(s, run), p, o) <==> Secured(s, run, p, o)
    ensures !Secured(s, run, p, o) ==> !Confirmed(s, run, p, o)
  {
    hide Durable, Handled, LettersOk;
    StartsEmpty(s, p, o);
    DurableExactly(s, run, p, o);
    if Confirmed(s, run, p, o) {
      NothingIsLost(s, run, p, o);
    }
  }

  // ---- what is lost stays lost ----

  /** A process still holds the message: it is being tried, or its letter is queued. */
  predicate Held(s: Group, p: nat, o: nat) {
    (exists h :: h in s.pending && h < |s.history| && Concerns(s.history[h], p, o)) ||
    exists c :: 0 <= c < |s.workers| && InHandOf(s, c, p, o)
  }

  predicate Gone(s: Group, p: nat, o: nat) {
    p < |s.committed| && o < s.committed[p] && !Durable(s, p, o) && !Held(s, p, o)
  }

  /** No poll hands out an offset below the committed one. */
  lemma PollsAboveCommit(s: Group, c: nat, e: nat)
    requires Inv(s) && CanPoll(s, c, e)
    ensures s.leases[e].partition < |s.committed|
    ensures s.committed[s.leases[e].partition] <= s.leases[e].position
  {
    assert LeaseOk(s, e);
  }

  lemma PollKeepsGone(s: Group, c: nat, e: nat, p: nat, o: nat)
    requires Inv(s) && CanPoll(s, c, e) && Gone(s, p, o)
    ensures !Held(Polling(s, c, e), p, o)
  {
    hide Inv;
    PollsAboveCommit(s, c, e);
    var t := Polling(s, c, e);
    forall k | 0 <= k < |t.workers| ensures !InHandOf(t, k, p, o) {
      assert !InHandOf(s, k, p, o);
    }
  }

  lemma DoKeepsGone(s: Group, c: nat, act: Act, p: nat, o: nat)
    requires CanDo(s, c, act) && Gone(s, p, o) && LettersOk(s)
    ensures !Held(Doing(s, c, act), p, o)
  {
    var t := Doing(s, c, act);
    assert !InHandOf(s, c, p, o);
    forall k | 0 <= k < |t.workers| ensures !InHandOf(t, k, p, o) {
      assert !InHandOf(s, k, p, o);
    }
    forall h | h in t.pending && h < |t.history| ensures !Concerns(t.history[h], p, o) {
      if h in s.pending {
        assert LetterAt(s, h);
      }
    }
  }

  lemma OtherKeepsGone(s: Group, l: Label, p: nat, o: nat)
    requires Enabled(s, l) && !l.Poll? && !l.Do? && Gone(s, p, o)
    ensures !Held(Next(s, l), p, o)
  {
    hide Dropped, Settle;
    var t := Next(s, l);
    assert t.pending <= s.pending && t.history == s.history;
    forall k | 0 <= k < |t.workers| ensures !InHandOf(t, k, p, o) {
      assert !InHandOf(s, k, p, o);
    }
  }

  lemma StepKeepsGone(s: Group, l: Label, p: nat, o: nat)
    requires Inv(s) && LettersOk(s) && Enabled(s, l) && Gone(s, p, o)
    ensures Gone(Next(s, l), p, o)
  {
    hide Inv, Durable, LettersOk, Held;
    StepKeepsCommits(s, l, p);
    StepSecures(s, l, p, o);
    GoneIsNotSecured(s, l, p, o);
    match l {
      case Poll(c, e) => PollKeepsGone(s, c, e, p, o);
      case Do(c, act) => DoKeepsGone(s, c, act, p, o);
      case _ => OtherKeepsGone(s, l, p, o);
    }
  }

  lemma GoneIsNotSecured(s: Group, l: Label, p: nat, o: nat)
    requires Enabled(s, l) && Gone(s, p, o)
    ensures !Secures(s, l, p, o)
  {
  }

  /** A committed message that is neither durable nor held by any process is never handed out again:
      no continuation of the run, with whatever restarts and reassignments, brings it back. */
  lemma {:induction false} LossIsPermanent(s: Group, run: seq<Label>, p: nat, o: nat)
    requires Inv(s) && LettersOk(s) && Gone(s, p, o) && Legal(s, run)
    ensures Gone(Exec(s, run), p, o)
    decreases |run|
  {
    if run != [] {
      hide Inv, LettersOk, Gone;
      StepKeepsInv(s, run[0]);
      StepKeepsLetters(s, run[0]);
      StepKeepsGone(s, run[0], p, o);
      LossIsPermanent(Next(s, run[0]), run[1..], p, o);
    }
  }

  ghost predicate Recoverable(s: Group, p: nat, o: nat) {
    exists run :: Legal(s, run) && Durable(Exec(s, run), p, o)
  }

  /** A committed message that is not durable can still become so if and only if a process holds it. */
  lemma RecoverableExactly(s: Group, p: nat, o: nat)
    requires Inv(s) && LettersOk(s)
    requires p < |s.committed| && o < s.committed[p] && !Durable(s, p, o)
    ensures Recoverable(s, p, o) <==> Held(s, p, o)
  {
    hide Inv, LettersOk, Durable;
    if Held(s, p, o) {
      var l := SecuringStep(s, p, o);
      StepSecures(s, l, p, o);
      LegalOne(s, l);
    } else if run :| Legal(s, run) && Durable(Exec(s, run), p, o) {
      LossIsPermanent(s, run, p, o);
    }
  }

  lemma SecuringStep(s: Group, p: nat, o: nat) returns (l: Label)
    requires Inv(s) && Held(s, p, o)
    ensures Enabled(s, l) && Secures(s, l, p, o)
  {
    if h :| h in s.pending && h < |s.history| && Concerns(s.history[h], p, o) {
      l := Ack(h);
    } else {
      var c :| 0 <= c < |s.workers| && InHandOf(s, c, p, o);
      assert WorkerOk(s, c);
      l := Do(c, Accepted);
    }
  }

  // ---- the flush result decides nothing, the report everything ----

  const ONE_MESSAGE := Group(1, [0], [1], [0], [], [Worker(Idle, 0)], [], {}, {})

  /** One message, dead-lettered with this flush, stored and committed; then the process dies. */
  function BuriedOnce(flush: Flush): seq<Label> {
    [Assign(0, 0), Poll(0, 0), Do(0, DeadLettered(flush))] + [Do(0, Stored(true)), Commit(0), Crash(0)]
  }

  function LeaseAt(position: nat, done: nat, stored: nat, live: bool): seq<Lease> {
    [Lease(0, 0, 0, position, done, stored, live)]
  }

  function LettersWith(report: Report, of: Report): set<nat> {
    if report == of then {0} else {}
  }

  function BuriedAt(flush: Flush, stored: nat, phase: Phase, committed: nat): Group {
    Group(1, [0], [1], [committed], LeaseAt(1, 1, stored, true), [Worker(phase, 0)],
          [Handling(0, 0, 0, false)], LettersWith(flush.report, Delivered), LettersWith(flush.report, Queued))
  }

  function Final(flush: Flush): Group {
    Group(1, [0], [1], [1], LeaseAt(1, 1, 1, false), [Worker(Idle, 0)],
          [Handling(0, 0, 0, false)], LettersWith(flush.report, Delivered), {})
  }

  lemma BuriesIt(flush: Flush)
    ensures var run := [Assign(0, 0), Poll(0, 0), Do(0, DeadLettered(flush))];
      Legal(ONE_MESSAGE, run) && Exec(ONE_MESSAGE, run) == BuriedAt(flush, 0, Settled(0, 0), 0)
  {
    var s1 := ONE_MESSAGE.(leases := LeaseAt(0, 0, 0, true));
    var s2 := s1.(leases := LeaseAt(1, 0, 0, true), workers := [Worker(Trying(0, 0, 1), 0)]);
    assert Next(ONE_MESSAGE, Assign(0, 0)) == s1;
    assert Next(s1, Poll(0, 0)) == s2;
    assert Next(s2, Do(0, DeadLettered(flush))) == BuriedAt(flush, 0, Settled(0, 0), 0);
    LegalThree(ONE_MESSAGE, Assign(0, 0), Poll(0, 0), Do(0, DeadLettered(flush)));
  }

  lemma StoreOfIt(flush: Flush)
    ensures var s := BuriedAt(flush, 0, Settled(0, 0), 0);
      Enabled(s, Do(0, Stored(true))) && Next(s, Do(0, Stored(true))) == BuriedAt(flush, 1, Idle, 0)
  {
  }

  lemma CommitOfIt(flush: Flush)
    ensures var s := BuriedAt(flush, 1, Idle, 0);
      Enabled(s, Commit(0)) && Next(s, Commit(0)) == BuriedAt(flush, 1, Idle, 1)
  {
  }

  lemma CrashAfterIt(flush: Flush)
    ensures var s := BuriedAt(flush, 1, Idle, 1);
      Enabled(s, Crash(0)) && Next(s, Crash(0)) == Final(flush)
  {
  }

  lemma CommitsIt(flush: Flush)
    ensures var run := [Do(0, Stored(true)), Commit(0), Crash(0)];
      Legal(BuriedAt(flush, 0, Settled(0, 0), 0), run) &&
      Exec(BuriedAt(flush, 0, Settled(0, 0), 0), run) == Final(flush)
  {
    hide Enabled, Next, Legal, Exec, BuriedAt;
    StoreOfIt(flush);
    CommitOfIt(flush);
    CrashAfterIt(flush);
    LegalThree(BuriedAt(flush, 0, Settled(0, 0), 0), Do(0, Stored(true)), Commit(0), Crash(0));
  }

  lemma LegalThree(s: Group, a: Label, b: Label, c: Label)
    requires Enabled(s, a) && Enabled(Next(s, a), b) && Enabled(Next(Next(s, a), b), c)
    ensures Legal(s, [a, b, c]) && Exec(s, [a, b, c]) == Next(Next(Next(s, a), b), c)
  {
    hide Enabled, Next;
    LegalOne(Next(Next(s, a), b), c);
    LegalCons(Next(s, a), b, [c]);
    LegalCons(s, a, [b, c]);
    assert [a] + [b, c] == [a, b, c] && [b] + [c] == [b, c];
  }

  /** The run is legal, and when it is over the message is durable or can still become so. */
  ghost predicate Survives(run: seq<Label>) {
    Legal(ONE_MESSAGE, run) && Recoverable(Exec(ONE_MESSAGE, run), 0, 0)
  }

  /** `publish` looks at neither signal. One message, buried, stored and committed: it is lost for
      good if and only if its letter was not reported delivered. */
  lemma ReportDecides(flush: Flush)
    ensures Initial(ONE_MESSAGE) && Legal(ONE_MESSAGE, BuriedOnce(flush))
    ensures Exec(ONE_MESSAGE, BuriedOnce(flush)).committed == [1]
    ensures Survives(BuriedOnce(flush)) <==> flush.report.Delivered?
  {
    hide Legal, Exec, Inv, Recoverable;
    BuriesIt(flush);
    CommitsIt(flush);
    RunsAppend(ONE_MESSAGE, [Assign(0, 0), Poll(0, 0), Do(0, DeadLettered(flush))],
               [Do(0, Stored(true)), Commit(0), Crash(0)]);
    InitialInv(ONE_MESSAGE);
    RunKeepsInv(ONE_MESSAGE, BuriedOnce(flush));
    FinalIsGone(flush);
    if flush.report.Delivered? {
      StaysRecoverable(Final(flush), 0, 0);
    } else {
      RecoverableExactly(Final(flush), 0, 0);
    }
  }

  lemma FinalIsGone(flush: Flush)
    ensures LettersOk(Final(flush)) && !Held(Final(flush), 0, 0)
    ensures Durable(Final(flush), 0, 0) <==> flush.report.Delivered?
  {
    assert Final(flush).history[0] == Handling(0, 0, 0, false);
  }

  lemma StaysRecoverable(s: Group, p: nat, o: nat)
    requires Durable(s, p, o)
    ensures Recoverable(s, p, o)
  {
    assert Legal(s, []) && Exec(s, []) == s;
  }

  /** Whatever number `flush` returns, zero included, both outcomes are possible. */
  lemma FlushResultDecidesNothing(remaining: nat)
    ensures exists kept: Flush, lost: Flush ::
      kept.Remaining() == lost.Remaining() == remaining && Survives(BuriedOnce(kept)) && !Survives(BuriedOnce(lost))
  {
    hide Survives, BuriedOnce;
    var kept, lost := Flush(remaining, Delivered), Flush(remaining, Failed);
    ReportDecides(kept);
    ReportDecides(lost);
    assert kept.Remaining() == lost.Remaining() == remaining;
  }

  // ---- runs ----

  lemma LegalOne(s: Group, l: Label)
    requires Enabled(s, l)
    ensures Legal(s, [l]) && Exec(s, [l]) == Next(s, l)
  {
    assert [l][1..] == [];
  }

  lemma LegalCons(s: Group, l: Label, run: seq<Label>)
    requires Enabled(s, l) && Legal(Next(s, l), run)
    ensures Legal(s, [l] + run) && Exec(s, [l] + run) == Exec(Next(s, l), run)
  {
    assert ([l] + run)[1..] == run;
  }

  lemma {:induction false} RunsAppend(s: Group, run: seq<Label>, more: seq<Label>)
    requires Legal(s, run) && Legal(Exec(s, run), more)
    ensures Legal(s, run + more) && Exec(s, run + more) == Exec(Exec(s, run), more)
    decreases |run|
  {
    hide Enabled, Next;
    if run == [] {
      assert run + more == more;
    } else {
      RunsAppend(Next(s, run[0]), run[1..], more);
      LegalCons(s, run[0], run[1..] + more);
      assert run + more == [run[0]] + (run[1..] + more);
    }
  }

  // ---- commits never move back ----

  lemma StepKeepsCommits(s: Group, l: Label, p: nat)
    requires Inv(s) && Enabled(s, l) && p < |s.committed|
    ensures p < |Next(s, l).committed| && s.committed[p] <= Next(s, l).committed[p]
  {
    match l {
      case Commit(e) => assert LeaseOk(s, e);
      case Close(c) => LeaveKeepsShape(s, c, true);
      case _ =>
    }
  }

  lemma {:induction false} CommitsNeverMoveBack(s: Group, run: seq<Label>, p: nat)
    requires Inv(s) && Legal(s, run) && p < |s.committed|
    ensures p < |Exec(s, run).committed| && s.committed[p] <= Exec(s, run).committed[p]
    decreases |run|
  {
    if run != [] {
      StepKeepsInv(s, run[0]);
      StepKeepsCommits(s, run[0], p);
      CommitsNeverMoveBack(Next(s, run[0]), run[1..], p);
    }
  }

  // ---- order within an assignment ----

  /** The offsets of assignment `e` that ended one way, oldest first. */
  function Ended(history: seq<Handling>, e: nat, sunk: bool): seq<nat> {
    if history == [] then []
    else
      var h := history[|history| - 1];
      var before := Ended(history[..|history| - 1], e, sunk);
      if h.lease == e && h.sunk == sunk then before + [h.offset] else before
  }

  predicate StrictlyIncreasing(xs: seq<nat>) {
    forall i, j :: 0 <= i < j < |xs| ==> xs[i] < xs[j]
  }

  lemma {:induction false} EndedWithin(history: seq<Handling>, e: nat, sunk: bool, x: nat)
    requires x in Ended(history, e, sunk)
    ensures x in Offsets(history, e)
  {
    var before := history[..|history| - 1];
    if x in Ended(before, e, sunk) {
      EndedWithin(before, e, sunk, x);
    }
  }

  lemma IncreasingSnoc(xs: seq<nat>, x: nat)
    requires StrictlyIncreasing(xs) && forall y :: y in xs ==> y < x
    ensures StrictlyIncreasing(xs + [x])
  {
    forall i, j | 0 <= i < j < |xs + [x]| ensures (xs + [x])[i] < (xs + [x])[j] {
      assert xs[i] in xs;
    }
  }

  lemma LastIsGreatest(xs: seq<nat>, y: nat)
    requires StrictlyIncreasing(xs + [y])
    ensures StrictlyIncreasing(xs) && forall x :: x in xs ==> x < y
  {
    var all := xs + [y];
    assert all[|xs|] == y;
    forall i | 0 <= i < |xs| ensures all[i] == xs[i] {}
  }

  lemma {:induction false} EndedIncreases(history: seq<Handling>, e: nat, sunk: bool)
    requires StrictlyIncreasing(Offsets(history, e))
    ensures StrictlyIncreasing(Ended(history, e, sunk))
  {
    if history != [] {
      hide StrictlyIncreasing;
      var before := history[..|history| - 1];
      var h := history[|history| - 1];
      if h.lease == e {
        LastIsGreatest(Offsets(before, e), h.offset);
        EndedIncreases(before, e, sunk);
        forall x | x in Ended(before, e, sunk) ensures x < h.offset {
          EndedWithin(before, e, sunk, x);
        }
        IncreasingSnoc(Ended(before, e, sunk), h.offset);
      } else {
        EndedIncreases(before, e, sunk);
      }
    }
  }

  lemma {:induction false} EndingsMerge(history: seq<Handling>, e: nat)
    ensures multiset(Ended(history, e, true)) + multiset(Ended(history, e, false)) == multiset(Offsets(history, e))
  {
    if history != [] {
      EndingsMerge(history[..|history| - 1], e);
    }
  }

  /** Within one assignment: accepted offsets strictly increase, dead-lettered offsets strictly
      increase, no offset is in both, and together they are the handled slice of the log. */
  lemma OneAssignmentKeepsOrder(s: Group, run: seq<Label>, e: nat)
    requires Initial(s) && Legal(s, run) && e < |Exec(s, run).leases|
    ensures var t := Exec(s, run);
      var l := t.leases[e];
      l.start <= l.done <= l.position <= l.done + 1 &&
      StrictlyIncreasing(Ended(t.history, e, true)) && StrictlyIncreasing(Ended(t.history, e, false)) &&
      Offsets(t.history, e) == Slice(l.start, l.done) &&
      multiset(Ended(t.history, e, true)) + multiset(Ended(t.history, e, false)) == multiset(Slice(l.start, l.done))
  {
    InitialInv(s);
    RunKeepsInv(s, run);
    var t := Exec(s, run);
    assert LeaseOk(t, e);
    EndedIncreases(t.history, e, true);
    EndedIncreases(t.history, e, false);
    EndingsMerge(t.history, e);
  }

  // ---- bounded replay ----

  /** The times offset `o` of partition `p` reached a terminal state. */
  function Handlings(history: seq<Handling>, p: nat, o: nat): set<nat> {
    set i | 0 <= i < |history| && history[i].partition == p && history[i].offset == o
  }

  function AssignmentsOf(leases: seq<Lease>, p: nat): set<nat> {
    set e | 0 <= e < |leases| && leases[e].partition == p
  }

  /** The assignments of `p` under which `o` was reached. */
  function Reaching(leases: seq<Lease>, p: nat, o: nat): set<nat> {
    set e | 0 <= e < |leases| && leases[e].partition == p && leases[e].start <= o < leases[e].done
  }

  lemma {:induction false} OffsetAt(history: seq<Handling>, e: nat, i: nat)
    requires i < |history| && history[i].lease == e
    ensures |Offsets(history[..i], e)| < |Offsets(history, e)|
    ensures Offsets(history, e)[|Offsets(history[..i], e)|] == history[i].offset
  {
    var before := history[..|history| - 1];
    if i < |history| - 1 {
      assert before[..i] == history[..i];
      OffsetAt(before, e, i);
    }
  }

  lemma {:induction false} OffsetsPrefix(history: seq<Handling>, e: nat, i: nat, j: nat)
    requires i < j <= |history| && history[i].lease == e
    ensures |Offsets(history[..i], e)| < |Offsets(history[..j], e)|
  {
    assert history[..j][..i] == history[..i];
    OffsetAt(history[..j], e, i);
  }

  lemma {:induction false} SomewhereInHistory(history: seq<Handling>, e: nat, o: nat) returns (i: nat)
    requires o in Offsets(history, e)
    ensures i < |history| && history[i].lease == e && history[i].offset == o
  {
    var n := |history| - 1;
    if history[n].lease == e && history[n].offset == o {
      i := n;
    } else {
      i := SomewhereInHistory(history[..n], e, o);
    }
  }

  /** Under one assignment an offset is handled at most once, and exactly when it was reached. */
  lemma HandledOncePerAssignment(s: Group, i: nat, j: nat)
    requires Inv(s) && i < |s.history|
    ensures var h := s.history[i];
      h.lease < |s.leases| && s.leases[h.lease].partition == h.partition &&
      s.leases[h.lease].start <= h.offset < s.leases[h.lease].done
    ensures j < |s.history| && j != i && s.history[j].lease == s.history[i].lease ==>
      s.history[j].offset != s.history[i].offset
  {
    var e := s.history[i].lease;
    OffsetAt(s.history, e, i);
    if j < |s.history| && j != i && s.history[j].lease == e {
      OffsetAt(s.history, e, j);
      OffsetsPrefix(s.history, e, if i < j then i else j, if i < j then j else i);
    }
  }

  lemma {:induction false} SameSize(a: set<nat>, b: set<nat>, f: nat -> nat)
    requires forall x :: x in a ==> f(x) in b
    requires forall x, y :: x in a && y in a && f(x) == f(y) ==> x == y
    requires forall y :: y in b ==> exists x :: x in a && f(x) == y
    ensures |a| == |b|
    decreases a
  {
    if a == {} {
      assert b == {};
    } else {
      var x :| x in a;
      var a', b' := a - {x}, b - {f(x)};
      forall y | y in b' ensures exists z :: z in a' && f(z) == y {
        var z :| z in a && f(z) == y;
        assert z in a';
      }
      SameSize(a', b', f);
    }
  }

  lemma HandlingsMatchAssignments(s: Group, p: nat, o: nat)
    requires Inv(s)
    ensures |Handlings(s.history, p, o)| == |Reaching(s.leases, p, o)|
    ensures |Reaching(s.leases, p, o)| <= |AssignmentsOf(s.leases, p)|
  {
    var hs, es := Handlings(s.history, p, o), Reaching(s.leases, p, o);
    var f := (i: nat) => if i < |s.history| then s.history[i].lease else 0;
    forall i | i in hs ensures f(i) in es {
      HandledOncePerAssignment(s, i, i);
    }
    forall i, j | i in hs && j in hs && f(i) == f(j) ensures i == j {
      HandledOncePerAssignment(s, i, j);
    }
    forall e | e in es ensures exists i :: i in hs && f(i) == e {
      assert o == Slice(s.leases[e].start, s.leases[e].done)[o - s.leases[e].start];
      assert o in Offsets(s.history, e);
      var i := SomewhereInHistory(s.history, e, o);
      assert i in hs && f(i) == e;
    }
    SameSize(hs, es, f);
    SubsetSize(es, AssignmentsOf(s.leases, p));
  }

  lemma {:induction false} SubsetSize(a: set<nat>, b: set<nat>)
    requires a <= b
    ensures |a| <= |b|
    decreases a
  {
    if x :| x in a {
      SubsetSize(a - {x}, b - {x});
    }
  }

  /** How often the run assigned partition `p`. */
  function Assigns(run: seq<Label>, p: nat): nat {
    if run == [] then 0
    else (if run[0].Assign? && run[0].p == p then 1 else 0) + Assigns(run[1..], p)
  }

  lemma SamePartitions(s: Group, l: Label)
    requires Enabled(s, l) && !l.Assign?
    ensures |Next(s, l).leases| == |s.leases|
    ensures forall e :: 0 <= e < |s.leases| ==> Next(s, l).leases[e].partition == s.leases[e].partition
  {
  }

  lemma StepAssigns(s: Group, l: Label, p: nat)
    requires Enabled(s, l)
    ensures |AssignmentsOf(Next(s, l).leases, p)| ==
            |AssignmentsOf(s.leases, p)| + (if l.Assign? && l.p == p then 1 else 0)
  {
    var a, b := AssignmentsOf(s.leases, p), AssignmentsOf(Next(s, l).leases, p);
    if l.Assign? {
      assert b == if l.p == p then a + {|s.leases|} else a;
    } else {
      SamePartitions(s, l);
      assert a == b;
    }
  }

  lemma {:induction false} RunAssigns(s: Group, run: seq<Label>, p: nat)
    requires Legal(s, run)
    ensures |AssignmentsOf(Exec(s, run).leases, p)| == |AssignmentsOf(s.leases, p)| + Assigns(run, p)
    decreases |run|
  {
    if run != [] {
      StepAssigns(s, run[0], p);
      RunAssigns(Next(s, run[0]), run[1..], p);
    }
  }

  /** Replay is bounded: an offset is handled exactly once per assignment that reached it, so at
      most once per assignment of its partition in the run (the first plus every reassignment). */
  lemma ReplayIsBounded(s: Group, run: seq<Label>, p: nat, o: nat)
    requires Initial(s) && Legal(s, run)
    ensures var t := Exec(s, run);
      |Handlings(t.history, p, o)| == |Reaching(t.leases, p, o)| <= Assigns(run, p)
  {
    InitialInv(s);
    RunKeepsInv(s, run);
    HandlingsMatchAssignments(Exec(s, run), p, o);
    RunAssigns(s, run, p);
    assert AssignmentsOf(s.leases, p) == {};
  }

  /** A restart resumes at the committed offset, and what it handles again is exactly the part of
      an earlier assignment's slice from there up to the position that was lost. */
  lemma RestartReplaysExactly(s: Group, run: seq<Label>, p: nat, c: nat, more: seq<Label>, d: nat, o: nat)
    requires Initial(s) && Legal(s, run)
    requires CanAssign(Exec(s, run), p, c)
    requires Legal(Assigning(Exec(s, run), p, c), more)
    requires d < |Exec(s, run).leases| && Exec(s, run).leases[d].partition == p
    ensures var t := Exec(Assigning(Exec(s, run), p, c), more);
      var e := |Exec(s, run).leases|;
      e < |t.leases| && t.leases[e].partition == p && t.leases[e].start == Exec(s, run).committed[p] &&
      (o in Offsets(t.history, d) && o in Offsets(t.history, e) <==>
        Exec(s, run).committed[p] <= o < t.leases[d].done && o < t.leases[e].done)
  {
    var r := Exec(s, run);
    InitialInv(s);
    RunKeepsInv(s, run);
    AssignKeepsInv(r, p, c);
    RunKeepsInv(Assigning(r, p, c), more);
    LeasesStay(Assigning(r, p, c), more, |r.leases|);
    LeasesStay(Assigning(r, p, c), more, d);
    var t := Exec(Assigning(r, p, c), more);
    var e := |r.leases|;
    assert StartsAscend(t.leases) && t.leases[d].start <= t.leases[e].start;
    InSlice(t.leases[d].start, t.leases[d].done, o);
    InSlice(t.leases[e].start, t.leases[e].done, o);
  }

  lemma InSlice(from: nat, to: nat, o: nat)
    requires from <= to
    ensures o in Slice(from, to) <==> from <= o < to
  {
    if from <= o < to {
      assert Slice(from, to)[o - from] == o;
    }
  }

  lemma {:induction false} LeasesStay(s: Group, run: seq<Label>, e: nat)
    requires Legal(s, run) && e < |s.leases|
    ensures e < |Exec(s, run).leases|
    ensures Exec(s, run).leases[e].partition == s.leases[e].partition
    ensures Exec(s, run).leases[e].start == s.leases[e].start
    decreases |run|
  {
    if run != [] {
      LeasesStay(Next(s, run[0]), run[1..], e);
    }
  }

  // ---- what is not committed is handled again ----

  predicate Owned(s: Group, p: nat) {
    exists e :: 0 <= e < |s.leases| && s.leases[e].live && s.leases[e].partition == p
  }

  /** An assignment from the `n`-th on has handled `o`. */
  predicate ReachedSince(s: Group, n: nat, p: nat, o: nat) {
    exists e :: n <= e < |s.leases| && s.leases[e].partition == p && s.leases[e].start <= o < s.leases[e].done
  }

  /** Partition `p` belongs to assignments from the `n`-th on, and none of them passed over `o`. */
  predicate Renewed(s: Group, n: nat, p: nat, o: nat) {
    n <= |s.leases| && p < |s.committed| && (o < s.committed[p] ==> ReachedSince(s, n, p, o)) &&
    forall e :: 0 <= e < |s.leases| && s.leases[e].partition == p ==>
      (s.leases[e].live ==> n <= e) && (n <= e && o < s.leases[e].start ==> ReachedSince(s, n, p, o))
  }

  lemma ReachedSinceGrows(s: Group, l: Label, n: nat, p: nat, o: nat)
    requires Inv(s) && Enabled(s, l) && ReachedSince(s, n, p, o)
    ensures ReachedSince(Next(s, l), n, p, o)
  {
    hide Settle, SlicesOk, HistoryOk, Covered;
    var e :| n <= e < |s.leases| && s.leases[e].partition == p && s.leases[e].start <= o < s.leases[e].done;
    assert l.Do? ==> WorkerOk(s, l.c);
    var t := Next(s, l);
    assert t.leases[e].partition == p && t.leases[e].start == s.leases[e].start && s.leases[e].done <= t.leases[e].done;
  }

  /** Committing what a live assignment stored never passes over `o`. */
  lemma StoredSince(s: Group, e: nat, n: nat, p: nat, o: nat)
    requires Inv(s) && Renewed(s, n, p, o)
    requires e < |s.leases| && s.leases[e].live && s.leases[e].partition == p && o < s.leases[e].stored
    ensures ReachedSince(s, n, p, o)
  {
    assert LeaseOk(s, e);
  }

  lemma CommitRenews(s: Group, l: Label, n: nat, p: nat, o: nat)
    requires Inv(s) && Enabled(s, l) && Renewed(s, n, p, o)
    ensures p < |Next(s, l).committed| && (o < Next(s, l).committed[p] ==> ReachedSince(s, n, p, o))
  {
    hide SlicesOk, HistoryOk, Covered, StartsAscend;
    if l.Commit? && s.leases[l.e].partition == p && o < s.leases[l.e].stored {
      StoredSince(s, l.e, n, p, o);
    } else if l.Close? {
      SettleAt(s.leases, l.c, s.committed, p);
      if e :| 0 <= e < |s.leases| && s.leases[e].live && s.leases[e].owner == l.c && s.leases[e].partition == p {
        if o < s.leases[e].stored {
          StoredSince(s, e, n, p, o);
        }
      }
    }
  }

  lemma LeaseStays(s: Group, l: Label, e: nat)
    requires Enabled(s, l) && e < |s.leases|
    ensures var t := Next(s, l);
      |s.leases| <= |t.leases| && t.leases[e].partition == s.leases[e].partition &&
      t.leases[e].start == s.leases[e].start && (t.leases[e].live ==> s.leases[e].live)
  {
    hide Settle;
  }

  lemma NewLease(s: Group, l: Label)
    requires Enabled(s, l)
    ensures var t := Next(s, l);
      |s.leases| <= |t.leases| <= |s.leases| + 1 &&
      forall e :: |s.leases| <= e < |t.leases| && t.leases[e].partition < |s.committed| ==>
        t.leases[e].start == s.committed[t.leases[e].partition]
  {
    hide Settle;
  }

  lemma StepRenews(s: Group, l: Label, n: nat, p: nat, o: nat)
    requires Inv(s) && Enabled(s, l) && Renewed(s, n, p, o)
    ensures Renewed(Next(s, l), n, p, o)
  {
    hide Inv, ReachedSince, Next, Enabled;
    var t := Next(s, l);
    CommitRenews(s, l, n, p, o);
    NewLease(s, l);
    if ReachedSince(s, n, p, o) {
      ReachedSinceGrows(s, l, n, p, o);
    }
    forall e | 0 <= e < |t.leases| && t.leases[e].partition == p
      ensures (t.leases[e].live ==> n <= e) && (n <= e && o < t.leases[e].start ==> ReachedSince(t, n, p, o))
    {
      if e < |s.leases| {
        LeaseStays(s, l, e);
      }
    }
  }

  lemma {:induction false} RunRenews(s: Group, run: seq<Label>, n: nat, p: nat, o: nat)
    requires Inv(s) && Legal(s, run) && Renewed(s, n, p, o)
    ensures Renewed(Exec(s, run), n, p, o)
    decreases |run|
  {
    if run != [] {
      hide Inv, Renewed;
      StepKeepsInv(s, run[0]);
      StepRenews(s, run[0], n, p, o);
      RunRenews(Next(s, run[0]), run[1..], n, p, o);
    }
  }

  /** Once nobody owns `p`, an offset at or past its commit is never committed before a later
      assignment has handled it: whatever the run, and whatever was handled of it before. */
  lemma UncommittedIsReplayed(s: Group, run: seq<Label>, p: nat, o: nat)
    requires Inv(s) && Legal(s, run) && p < |s.committed| && s.committed[p] <= o && !Owned(s, p)
    ensures var t := Exec(s, run);
      p < |t.committed| &&
      (o < t.committed[p] ==>
        exists i :: 0 <= i < |t.history| && |s.leases| <= t.history[i].lease && Concerns(t.history[i], p, o))
  {
    var n, t := |s.leases|, Exec(s, run);
    RunKeepsInv(s, run);
    RunRenews(s, run, n, p, o);
    if o < t.committed[p] {
      var e :| n <= e < |t.leases| && t.leases[e].partition == p && t.leases[e].start <= o < t.leases[e].done;
      InSlice(t.leases[e].start, t.leases[e].done, o);
      assert Offsets(t.history, e) == Slice(t.leases[e].start, t.leases[e].done);
      var i := SomewhereInHistory(t.history, e, o);
      assert Concerns(t.history[i], p, o);
    }
  }
}
