/** The at-least-once protocol: one consumer group over a partitioned log.
    A state keeps every assignment ever made (`leases`) and every terminal state ever reached
    (`history`), so that statements about whole runs are statements about the last state. */
module Delivery {
  import opened Control

  /** One assignment of a partition. `[start, done)` has reached a terminal state under it,
      `position` is the next offset to poll, `stored` the offset eligible for commit. */
  datatype Lease = Lease(partition: nat, owner: nat, start: nat, position: nat, done: nat, stored: nat, live: bool)

  datatype Handling = Handling(lease: nat, partition: nat, offset: nat, sunk: bool)

  datatype Worker = Worker(phase: Phase, lease: nat)

  /** `acked` are the letters the dead letter topic holds, `pending` those still in the queue of the
      process that produced them; both are indexes into `history`. */
  datatype Group = Group(
    budget: nat,
    origin: seq<nat>,
    ends: seq<nat>,
    committed: seq<nat>,
    leases: seq<Lease>,
    workers: seq<Worker>,
    history: seq<Handling>,
    acked: set<nat>,
    pending: set<nat>)

  /** `Do` is any act of consumer `c` other than a poll; the labels below it are the environment's. */
  datatype Label =
    | Poll(c: nat, e: nat)
    | Do(c: nat, act: Act)
    | Commit(e: nat)
    | Assign(p: nat, c: nat)
    | Revoke(e: nat)
    | Crash(c: nat)
    | Close(c: nat)
    | Append(p: nat)
    | Ack(h: nat)
    | Reject(h: nat)

  /** poll() hands out the next offset of a partition the consumer owns. */
  predicate CanPoll(s: Group, c: nat, e: nat) {
    c < |s.workers| && e < |s.leases| && s.leases[e].live && s.leases[e].owner == c &&
    s.leases[e].partition < |s.ends| && s.leases[e].position < s.ends[s.leases[e].partition] &&
    Allowed(s.budget, s.workers[c].phase, Polled(s.leases[e].partition, s.leases[e].position))
  }

  function Polling(s: Group, c: nat, e: nat): Group
    requires CanPoll(s, c, e)
  {
    var lease := s.leases[e];
    s.(workers := s.workers[c := Worker(After(s.budget, s.workers[c].phase, Polled(lease.partition, lease.position)), e)],
       leases := s.leases[e := lease.(position := lease.position + 1)])
  }

  /** A store can succeed only while the assignment is live; it may be refused at any time. */
  predicate CanDo(s: Group, c: nat, act: Act) {
    c < |s.workers| && s.workers[c].lease < |s.leases| && !act.Polled? &&
    Allowed(s.budget, s.workers[c].phase, act) &&
    (act == Stored(true) ==> s.leases[s.workers[c].lease].live)
  }

  function Doing(s: Group, c: nat, act: Act): Group
    requires CanDo(s, c, act)
  {
    var w := s.workers[c];
    var lease := s.leases[w.lease];
    var moved := s.(workers := s.workers[c := Worker(After(s.budget, w.phase, act), w.lease)]);
    match act
    case Retried => moved
    case Accepted =>
      moved.(leases := s.leases[w.lease := lease.(done := w.phase.offset + 1)],
             history := s.history + [Handling(w.lease, w.phase.partition, w.phase.offset, true)])
    case DeadLettered(flush) =>
      moved.(leases := s.leases[w.lease := lease.(done := w.phase.offset + 1)],
             history := s.history + [Handling(w.lease, w.phase.partition, w.phase.offset, false)],
             acked := s.acked + (if flush.report.Delivered? then {|s.history|} else {}),
             pending := s.pending + (if flush.report.Queued? then {|s.history|} else {}))
    case Stored(accepted) =>
      if accepted then moved.(leases := s.leases[w.lease := lease.(stored := w.phase.offset + 1)]) else moved
  }

  predicate CanAssign(s: Group, p: nat, c: nat) {
    p < |s.ends| && p < |s.committed| && c < |s.workers| && s.workers[c].phase.Idle? &&
    forall e :: 0 <= e < |s.leases| && s.leases[e].live ==> s.leases[e].partition != p
  }

  function Assigning(s: Group, p: nat, c: nat): Group
    requires CanAssign(s, p, c)
  {
    var at := s.committed[p];
    s.(leases := s.leases + [Lease(p, c, at, at, at, at, true)])
  }

  /** Every live assignment of `c` ends. */
  function Dropped(leases: seq<Lease>, c: nat): (r: seq<Lease>)
    ensures |r| == |leases|
    ensures forall e :: 0 <= e < |leases| ==>
      r[e] == if leases[e].owner == c then leases[e].(live := false) else leases[e]
  {
    if leases == [] then []
    else
      var l := leases[|leases| - 1];
      Dropped(leases[..|leases| - 1], c) + [if l.owner == c then l.(live := false) else l]
  }

  /** `close()` commits the stored offset of every partition the consumer still owns. */
  function Settle(leases: seq<Lease>, c: nat, committed: seq<nat>): (r: seq<nat>)
    ensures |r| == |committed|
  {
    if leases == [] then committed
    else
      var l := leases[|leases| - 1];
      var r := Settle(leases[..|leases| - 1], c, committed);
      if l.live && l.owner == c && l.partition < |r| then r[l.partition := l.stored] else r
  }

  /** The letters queued in processes other than that of `c`. */
  function QueuedElsewhere(s: Group, c: nat): set<nat> {
    set h | h in s.pending &&
      !(h < |s.history| && s.history[h].lease < |s.leases| && s.leases[s.history[h].lease].owner == c)
  }

  /** The process of `c` goes away, and its producer's queue with it; it commits on the way out only
      when `close()` is reached. */
  function Leaving(s: Group, c: nat, commit: bool): Group
    requires c < |s.workers|
  {
    s.(leases := Dropped(s.leases, c), workers := s.workers[c := Worker(Idle, 0)],
       pending := QueuedElsewhere(s, c),
       committed := if commit then Settle(s.leases, c, s.committed) else s.committed)
  }

  predicate Enabled(s: Group, l: Label) {
    match l
    case Poll(c, e) => CanPoll(s, c, e)
    case Do(c, act) => CanDo(s, c, act)
    case Commit(e) => e < |s.leases| && s.leases[e].live && s.leases[e].partition < |s.committed|
    case Assign(p, c) => CanAssign(s, p, c)
    case Revoke(e) => e < |s.leases|
    case Crash(c) => c < |s.workers|
    case Close(c) => c < |s.workers|
    case Append(p) => p < |s.ends|
    case Ack(h) => h in s.pending
    case Reject(h) => h in s.pending
  }

  function Next(s: Group, l: Label): Group
    requires Enabled(s, l)
  {
    match l
    case Poll(c, e) => Polling(s, c, e)
    case Do(c, act) => Doing(s, c, act)
    case Commit(e) => s.(committed := s.committed[s.leases[e].partition := s.leases[e].stored])
    case Assign(p, c) => Assigning(s, p, c)
    case Revoke(e) => s.(leases := s.leases[e := s.leases[e].(live := false)])
    case Crash(c) => Leaving(s, c, false)
    case Close(c) => Leaving(s, c, true)
    case Append(p) => s.(ends := s.ends[p := s.ends[p] + 1])
    case Ack(h) => s.(acked := s.acked + {h}, pending := s.pending - {h})
    case Reject(h) => s.(pending := s.pending - {h})
  }

  // ---- runs ----

  predicate Initial(s: Group) {
    1 <= s.budget && |s.origin| == |s.ends| && s.committed == s.origin &&
    (forall p :: 0 <= p < |s.ends| ==> s.origin[p] <= s.ends[p]) &&
    s.leases == [] && s.history == [] && s.acked == {} && s.pending == {} &&
    forall c :: 0 <= c < |s.workers| ==> s.workers[c].phase.Idle?
  }

  predicate Legal(s: Group, run: seq<Label>)
    decreases |run|
  {
    run == [] || (Enabled(s, run[0]) && Legal(Next(s, run[0]), run[1..]))
  }

  function Exec(s: Group, run: seq<Label>): Group
    requires Legal(s, run)
    decreases |run|
  {
    if run == [] then s else Exec(Next(s, run[0]), run[1..])
  }

  // ---- the invariant ----

  predicate LeaseOk(s: Group, e: nat)
    requires e < |s.leases| && |s.committed| == |s.ends| == |s.origin|
  {
    var l := s.leases[e];
    l.partition < |s.ends| && l.owner < |s.workers| &&
    s.origin[l.partition] <= l.start <= l.stored <= l.done <= l.position <= l.done + 1 &&
    l.position <= s.ends[l.partition] &&
    l.start <= s.committed[l.partition] &&
    (l.live ==> s.committed[l.partition] <= l.stored) &&
    (l.live && l.done != l.position ==>
      s.workers[l.owner].phase.Trying? && s.workers[l.owner].lease == e)
  }

  predicate WorkerOk(s: Group, c: nat)
    requires c < |s.workers|
  {
    var w := s.workers[c];
    (!w.phase.Idle? ==>
      w.lease < |s.leases| && s.leases[w.lease].owner == c &&
      s.leases[w.lease].partition == w.phase.partition &&
      s.leases[w.lease].position == w.phase.offset + 1) &&
    (w.phase.Trying? ==> s.leases[w.lease].done == w.phase.offset && 1 <= w.phase.attempt <= s.budget) &&
    (w.phase.Settled? ==> s.leases[w.lease].stored <= w.phase.offset && s.leases[w.lease].done == w.phase.offset + 1)
  }

  predicate OneOwner(leases: seq<Lease>) {
    forall d, e :: 0 <= d < e < |leases| && leases[d].live && leases[e].live ==>
      leases[d].partition != leases[e].partition
  }

  /** Starts never go back: a later assignment of a partition starts no lower. */
  predicate StartsAscend(leases: seq<Lease>) {
    forall d, e :: 0 <= d < e < |leases| && leases[d].partition == leases[e].partition ==>
      leases[d].start <= leases[e].start
  }

  /** The offsets settled under assignment `e`, oldest first. */
  function Offsets(history: seq<Handling>, e: nat): seq<nat> {
    if history == [] then []
    else
      var h := history[|history| - 1];
      var before := Offsets(history[..|history| - 1], e);
      if h.lease == e then before + [h.offset] else before
  }

  function Slice(from: nat, to: nat): (r: seq<nat>)
    requires from <= to
    ensures |r| == to - from
    ensures forall i :: 0 <= i < |r| ==> r[i] == from + i
  {
    seq(to - from, i => from + i)
  }

  predicate Handled(history: seq<Handling>, p: nat, o: nat) {
    exists i :: 0 <= i < |history| && history[i].partition == p && history[i].offset == o
  }

  predicate HistoryOk(s: Group) {
    forall i :: 0 <= i < |s.history| ==>
      s.history[i].lease < |s.leases| && s.history[i].partition == s.leases[s.history[i].lease].partition
  }

  predicate SlicesOk(s: Group) {
    forall e :: 0 <= e < |s.leases| ==>
      s.leases[e].start <= s.leases[e].done &&
      Offsets(s.history, e) == Slice(s.leases[e].start, s.leases[e].done)
  }

  /** Everything between where the group began and `upTo` has reached a terminal state. */
  predicate CoveredTo(s: Group, p: nat, upTo: nat)
    requires p < |s.origin|
  {
    forall o :: s.origin[p] <= o < upTo ==> Handled(s.history, p, o)
  }

  predicate Covered(s: Group)
    requires |s.committed| == |s.origin|
  {
    (forall p :: 0 <= p < |s.origin| ==> s.origin[p] <= s.committed[p] && CoveredTo(s, p, s.committed[p])) &&
    (forall e :: 0 <= e < |s.leases| && s.leases[e].partition < |s.origin| ==>
      CoveredTo(s, s.leases[e].partition, s.leases[e].done))
  }

  /** Control state: leases, workers and commits fit together. */
  predicate Shape(s: Group) {
    1 <= s.budget && |s.origin| == |s.committed| == |s.ends| &&
    (forall p :: 0 <= p < |s.ends| ==> s.committed[p] <= s.ends[p]) &&
    (forall e :: 0 <= e < |s.leases| ==> LeaseOk(s, e)) &&
    (forall c :: 0 <= c < |s.workers| ==> WorkerOk(s, c)) &&
    OneOwner(s.leases) && StartsAscend(s.leases)
  }

  predicate Inv(s: Group) {
    Shape(s) && HistoryOk(s) && SlicesOk(s) && Covered(s)
  }

  // ---- preservation, one family of steps at a time ----

  lemma HandledGrows(history: seq<Handling>, h: Handling)
    ensures forall p, o :: Handled(history, p, o) ==> Handled(history + [h], p, o)
    ensures Handled(history + [h], h.partition, h.offset)
  {
    forall p, o | Handled(history, p, o) ensures Handled(history + [h], p, o) {
      var i :| 0 <= i < |history| && history[i].partition == p && history[i].offset == o;
      assert (history + [h])[i] == history[i];
    }
    assert (history + [h])[|history|] == h;
  }

  lemma OffsetsSnoc(history: seq<Handling>, h: Handling, e: nat)
    ensures Offsets(history + [h], e) ==
            if h.lease == e then Offsets(history, e) + [h.offset] else Offsets(history, e)
  {
    assert (history + [h])[..|history|] == history;
  }

  lemma {:induction false} NoOffsetsYet(history: seq<Handling>, e: nat)
    requires forall i :: 0 <= i < |history| ==> history[i].lease < e
    ensures Offsets(history, e) == []
  {
    if history != [] {
      NoOffsetsYet(history[..|history| - 1], e);
    }
  }

  lemma PollKeepsShape(s: Group, c: nat, e: nat)
    requires Inv(s) && CanPoll(s, c, e)
    ensures Shape(Polling(s, c, e))
  {
    hide SlicesOk, HistoryOk, Covered;
    var t := Polling(s, c, e);
    assert WorkerOk(s, c);
    assert LeaseOk(s, e);
    assert OneOwner(t.leases) && StartsAscend(t.leases);
    forall d | 0 <= d < |t.leases| ensures LeaseOk(t, d) {
      assert LeaseOk(s, d);
    }
    forall k | 0 <= k < |t.workers| ensures WorkerOk(t, k) {
      assert WorkerOk(s, k);
    }
  }

  lemma TerminalKeepsShape(s: Group, c: nat, act: Act)
    requires Inv(s) && CanDo(s, c, act) && (act.Accepted? || act.DeadLettered?)
    ensures Shape(Doing(s, c, act))
  {
    hide SlicesOk, HistoryOk, Covered;
    var t := Doing(s, c, act);
    assert WorkerOk(s, c);
    assert LeaseOk(s, s.workers[c].lease);
    assert OneOwner(t.leases) && StartsAscend(t.leases);
    forall d | 0 <= d < |t.leases| ensures LeaseOk(t, d) {
      assert LeaseOk(s, d);
    }
    forall k | 0 <= k < |t.workers| ensures WorkerOk(t, k) {
      assert WorkerOk(s, k);
    }
  }

  lemma QuietActKeepsShape(s: Group, c: nat, act: Act)
    requires Inv(s) && CanDo(s, c, act) && (act.Retried? || act.Stored?)
    ensures Shape(Doing(s, c, act))
  {
    hide SlicesOk, HistoryOk, Covered;
    var t := Doing(s, c, act);
    assert WorkerOk(s, c);
    assert LeaseOk(s, s.workers[c].lease);
    assert OneOwner(t.leases) && StartsAscend(t.leases);
    forall d | 0 <= d < |t.leases| ensures LeaseOk(t, d) {
      assert LeaseOk(s, d);
    }
    forall k | 0 <= k < |t.workers| ensures WorkerOk(t, k) {
      assert WorkerOk(s, k);
    }
  }

  lemma OtherKeepsShape(s: Group, l: Label)
    requires Inv(s) && Enabled(s, l) && (l.Revoke? || l.Append? || l.Ack? || l.Reject?)
    ensures Shape(Next(s, l))
  {
    hide SlicesOk, HistoryOk, Covered;
    var t := Next(s, l);
    assert OneOwner(t.leases) && StartsAscend(t.leases);
    forall d | 0 <= d < |t.leases| ensures LeaseOk(t, d) {
      assert LeaseOk(s, d);
    }
    forall c | 0 <= c < |t.workers| ensures WorkerOk(t, c) {
      assert WorkerOk(s, c);
    }
  }

  lemma CommitKeepsShape(s: Group, l: Label)
    requires Inv(s) && Enabled(s, l) && l.Commit?
    ensures Shape(Next(s, l))
  {
    hide SlicesOk, HistoryOk, Covered;
    var t := Next(s, l);
    assert LeaseOk(s, l.e);
    forall d | 0 <= d < |t.leases| ensures LeaseOk(t, d) {
      assert LeaseOk(s, d);
    }
    forall c | 0 <= c < |t.workers| ensures WorkerOk(t, c) {
      assert WorkerOk(s, c);
    }
  }

  lemma AssignKeepsShape(s: Group, p: nat, c: nat)
    requires Inv(s) && CanAssign(s, p, c)
    ensures Shape(Assigning(s, p, c))
  {
    hide SlicesOk, HistoryOk, CoveredTo;
    var t := Assigning(s, p, c);
    forall d | 0 <= d < |t.leases| ensures LeaseOk(t, d) {
      if d < |s.leases| {
        assert LeaseOk(s, d);
      }
    }
    forall k | 0 <= k < |t.workers| ensures WorkerOk(t, k) {
      assert WorkerOk(s, k);
    }
    forall d, e | 0 <= d < e < |t.leases| && t.leases[d].partition == t.leases[e].partition
      ensures t.leases[d].start <= t.leases[e].start
    {
      assert LeaseOk(s, d);
    }
  }

  /** Coverage reads only the history: it carries over wherever no commit and no `done` exceeds
      what was already covered. */
  lemma CoverageCarries(s: Group, t: Group)
    requires |s.origin| == |s.committed| && t.origin == s.origin && |t.committed| == |s.committed|
    requires Covered(s) && |s.leases| <= |t.leases|
    requires forall p, o :: Handled(s.history, p, o) ==> Handled(t.history, p, o)
    requires forall p :: 0 <= p < |s.origin| ==>
      s.committed[p] <= t.committed[p] && CoveredTo(t, p, t.committed[p])
    requires forall e :: 0 <= e < |t.leases| ==>
      if e < |s.leases| && s.leases[e].done == t.leases[e].done then t.leases[e].partition == s.leases[e].partition
      else t.leases[e].partition < |s.origin| && CoveredTo(t, t.leases[e].partition, t.leases[e].done)
    ensures Covered(t)
  {
    forall e | 0 <= e < |t.leases| && t.leases[e].partition < |t.origin|
      ensures CoveredTo(t, t.leases[e].partition, t.leases[e].done)
    {
      if e < |s.leases| && s.leases[e].done == t.leases[e].done {
        assert CoveredTo(s, s.leases[e].partition, s.leases[e].done);
      }
    }
  }

  lemma SameHistoryCovers(s: Group, t: Group)
    requires |s.origin| == |s.committed| && t.origin == s.origin && s.history == t.history && Covered(s)
    ensures forall p :: 0 <= p < |s.origin| ==> CoveredTo(t, p, s.committed[p])
    ensures forall e :: 0 <= e < |s.leases| && s.leases[e].partition < |s.origin| ==>
      CoveredTo(t, s.leases[e].partition, s.leases[e].done)
  {
    forall p | 0 <= p < |s.origin| ensures CoveredTo(t, p, s.committed[p]) {
      assert CoveredTo(s, p, s.committed[p]);
    }
    forall e | 0 <= e < |s.leases| && s.leases[e].partition < |s.origin|
      ensures CoveredTo(t, s.leases[e].partition, s.leases[e].done)
    {
      assert CoveredTo(s, s.leases[e].partition, s.leases[e].done);
    }
  }

  /** Steps that leave the history, every `done` and every commit alone. */
  lemma QuietKeepsTrail(s: Group, t: Group)
    requires Inv(s) && Shape(t)
    requires t.origin == s.origin && t.history == s.history && t.committed == s.committed
    requires |t.leases| == |s.leases|
    requires forall e :: 0 <= e < |s.leases| ==>
      t.leases[e].partition == s.leases[e].partition && t.leases[e].start == s.leases[e].start &&
      t.leases[e].done == s.leases[e].done
    ensures Inv(t)
  {
    SameHistoryCovers(s, t);
    CoverageCarries(s, t);
  }

  lemma KeepsCommit(s: Group, l: Label)
    requires Inv(s) && Enabled(s, l) && l.Commit?
    ensures Inv(Next(s, l))
  {
    var t := Next(s, l);
    CommitKeepsShape(s, l);
    assert LeaseOk(s, l.e);
    SameHistoryCovers(s, t);
    CoverageCarries(s, t);
  }

  lemma TerminalKeepsCoverage(s: Group, c: nat, act: Act)
    requires Inv(s) && CanDo(s, c, act) && (act.Accepted? || act.DeadLettered?)
    ensures Covered(Doing(s, c, act))
  {
    var t := Doing(s, c, act);
    var w := s.workers[c];
    assert WorkerOk(s, c) && LeaseOk(s, w.lease);
    HandledGrows(s.history, t.history[|s.history|]);
    assert t.history == s.history + [t.history[|s.history|]];
    forall p | 0 <= p < |t.origin| ensures CoveredTo(t, p, t.committed[p]) {
      assert CoveredTo(s, p, s.committed[p]);
    }
    assert CoveredTo(s, s.leases[w.lease].partition, s.leases[w.lease].done);
    CoverageCarries(s, t);
  }

  lemma TerminalKeepsSlices(s: Group, c: nat, act: Act)
    requires Inv(s) && CanDo(s, c, act) && (act.Accepted? || act.DeadLettered?)
    ensures SlicesOk(Doing(s, c, act))
  {
    var t := Doing(s, c, act);
    var w := s.workers[c];
    assert WorkerOk(s, c);
    var h := t.history[|s.history|];
    assert t.history == s.history + [h];
    forall e | 0 <= e < |t.leases|
      ensures t.leases[e].start <= t.leases[e].done
      ensures Offsets(t.history, e) == Slice(t.leases[e].start, t.leases[e].done)
    {
      OffsetsSnoc(s.history, h, e);
      assert Offsets(s.history, e) == Slice(s.leases[e].start, s.leases[e].done);
    }
  }

  lemma DoKeepsInv(s: Group, c: nat, act: Act)
    requires Inv(s) && CanDo(s, c, act)
    ensures Inv(Doing(s, c, act))
  {
    assert WorkerOk(s, c);
    if act.Accepted? || act.DeadLettered? {
      TerminalKeepsShape(s, c, act);
      TerminalKeepsCoverage(s, c, act);
      TerminalKeepsSlices(s, c, act);
    } else {
      QuietActKeepsShape(s, c, act);
      QuietKeepsTrail(s, Doing(s, c, act));
    }
  }

  lemma AssignKeepsInv(s: Group, p: nat, c: nat)
    requires Inv(s) && CanAssign(s, p, c)
    ensures Inv(Assigning(s, p, c))
  {
    var t := Assigning(s, p, c);
    AssignKeepsShape(s, p, c);
    NoOffsetsYet(s.history, |s.leases|);
    assert Offsets(t.history, |s.leases|) == Slice(s.committed[p], s.committed[p]);
    SameHistoryCovers(s, t);
    CoverageCarries(s, t);
  }

  lemma {:induction false} SettleAt(leases: seq<Lease>, c: nat, committed: seq<nat>, p: nat)
    requires OneOwner(leases) && p < |committed|
    ensures forall e :: 0 <= e < |leases| && leases[e].live && leases[e].owner == c && leases[e].partition == p ==>
      Settle(leases, c, committed)[p] == leases[e].stored
    ensures (forall e :: 0 <= e < |leases| && leases[e].live && leases[e].owner == c ==> leases[e].partition != p) ==>
      Settle(leases, c, committed)[p] == committed[p]
  {
    if leases != [] {
      SettleAt(leases[..|leases| - 1], c, committed, p);
    }
  }

  /** What `Close` leaves committed for a partition: a stored offset of its own, or the old value. */
  lemma SettledCommit(s: Group, c: nat, p: nat)
    requires Inv(s) && c < |s.workers| && p < |s.ends|
    ensures var at := Settle(s.leases, c, s.committed)[p];
      s.committed[p] <= at <= s.ends[p] && CoveredTo(s, p, at) &&
      forall e :: 0 <= e < |s.leases| && s.leases[e].live && s.leases[e].partition == p ==>
        at == if s.leases[e].owner == c then s.leases[e].stored else s.committed[p]
  {
    SettleAt(s.leases, c, s.committed, p);
    if e :| 0 <= e < |s.leases| && s.leases[e].live && s.leases[e].partition == p {
      assert LeaseOk(s, e);
    }
  }

  lemma LeaveMovesCommits(s: Group, c: nat, commit: bool)
    requires Inv(s) && c < |s.workers|
    ensures var t := Leaving(s, c, commit);
      |t.committed| == |s.committed| == |s.ends| &&
      forall p :: 0 <= p < |s.ends| ==>
        s.committed[p] <= t.committed[p] <= s.ends[p] &&
        forall e :: 0 <= e < |t.leases| && t.leases[e].live && t.leases[e].partition == p ==>
          t.committed[p] == s.committed[p]
  {
    hide SlicesOk, HistoryOk, Covered, Settle;
    var t := Leaving(s, c, commit);
    forall p | 0 <= p < |s.ends|
      ensures s.committed[p] <= t.committed[p] <= s.ends[p]
      ensures forall e :: 0 <= e < |t.leases| && t.leases[e].live && t.leases[e].partition == p ==>
        t.committed[p] == s.committed[p]
    {
      SettledCommit(s, c, p);
    }
  }

  lemma LeaveKeepsShape(s: Group, c: nat, commit: bool)
    requires Inv(s) && c < |s.workers|
    ensures Shape(Leaving(s, c, commit))
    ensures forall p :: 0 <= p < |s.ends| ==> s.committed[p] <= Leaving(s, c, commit).committed[p]
  {
    LeaveMovesCommits(s, c, commit);
    hide SlicesOk, HistoryOk, Covered, Settle;
    var t := Leaving(s, c, commit);
    assert OneOwner(t.leases) && StartsAscend(t.leases);
    forall e | 0 <= e < |t.leases| ensures LeaseOk(t, e) {
      assert LeaseOk(s, e);
    }
    forall k | 0 <= k < |t.workers| ensures WorkerOk(t, k) {
      assert WorkerOk(s, k);
    }
  }

  lemma LeaveKeepsInv(s: Group, c: nat, commit: bool)
    requires Inv(s) && c < |s.workers|
    ensures Inv(Leaving(s, c, commit))
  {
    var t := Leaving(s, c, commit);
    LeaveKeepsShape(s, c, commit);
    SameHistoryCovers(s, t);
    forall p | 0 <= p < |t.origin| ensures CoveredTo(t, p, t.committed[p]) {
      SettledCommit(s, c, p);
      assert CoveredTo(s, p, t.committed[p]);
    }
    CoverageCarries(s, t);
  }

  lemma StepKeepsInv(s: Group, l: Label)
    requires Inv(s) && Enabled(s, l)
    ensures Inv(Next(s, l))
  {
    match l {
      case Poll(c, e) =>
        PollKeepsShape(s, c, e);
        QuietKeepsTrail(s, Next(s, l));
      case Do(c, act) => DoKeepsInv(s, c, act);
      case Commit(_) => KeepsCommit(s, l);
      case Assign(p, c) => AssignKeepsInv(s, p, c);
      case Crash(c) => LeaveKeepsInv(s, c, false);
      case Close(c) => LeaveKeepsInv(s, c, true);
      case _ =>
        OtherKeepsShape(s, l);
        QuietKeepsTrail(s, Next(s, l));
    }
  }

  lemma {:induction false} RunKeepsInv(s: Group, run: seq<Label>)
    requires Inv(s) && Legal(s, run)
    ensures Inv(Exec(s, run))
    decreases |run|
  {
    if run != [] {
      StepKeepsInv(s, run[0]);
      RunKeepsInv(Next(s, run[0]), run[1..]);
    }
  }

  lemma InitialInv(s: Group)
    requires Initial(s)
    ensures Inv(s)
  {
  }
}
