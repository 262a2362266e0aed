/** Progress of the group: no message blocks its partition. Working steps are bounded by what the
    run hands out, a group with work left can always take a step, and a drained group whose
    owners close commits the ends of the log. */
module Drain {
  import opened Control
  import opened Delivery
  import Replay

  predicate Working(l: Label) {
    l.Poll? || l.Do?
  }

  function NatSum(xs: seq<nat>): nat {
    if xs == [] then 0 else NatSum(xs[..|xs| - 1]) + xs[|xs| - 1]
  }

  lemma NatSumSnoc(xs: seq<nat>, x: nat)
    ensures NatSum(xs + [x]) == NatSum(xs) + x
  {
    assert (xs + [x])[..|xs|] == xs;
  }

  lemma {:induction false} NatSumUpdate(xs: seq<nat>, i: nat, x: nat)
    requires i < |xs|
    ensures NatSum(xs[i := x]) == NatSum(xs) - xs[i] + x
  {
    var n := |xs| - 1;
    if i == n {
      assert xs[i := x][..n] == xs[..n];
    } else {
      assert xs[i := x][..n] == xs[..n][i := x];
      NatSumUpdate(xs[..n], i, x);
    }
  }

  lemma {:induction false} NatSumBelow(xs: seq<nat>, ys: seq<nat>)
    requires |xs| == |ys| && forall i :: 0 <= i < |xs| ==> xs[i] <= ys[i]
    ensures NatSum(xs) <= NatSum(ys)
  {
    if xs != [] {
      NatSumBelow(xs[..|xs| - 1], ys[..|ys| - 1]);
    }
  }

  lemma {:induction false} NatSumZero(xs: seq<nat>)
    ensures NatSum(xs) == 0 <==> forall i :: 0 <= i < |xs| ==> xs[i] == 0
  {
    if xs != [] {
      var n := |xs| - 1;
      NatSumZero(xs[..n]);
      assert forall i :: 0 <= i < n ==> xs[..n][i] == xs[i];
    }
  }

  // ---- the measure ----

  /** Steps one message can take: a poll, `budget - 1` retries, a terminal state and a store. */
  function PerMessage(s: Group): nat { s.budget + 2 }

  function Pending(s: Group, e: nat): nat
    requires e < |s.leases|
  {
    var l := s.leases[e];
    if l.live && l.partition < |s.ends| && l.position <= s.ends[l.partition]
    then (s.ends[l.partition] - l.position) * PerMessage(s) else 0
  }

  /** What is left of the message in hand: attempts, its terminal state and its store. */
  function InHand(s: Group, c: nat): nat
    requires c < |s.workers|
  {
    match s.workers[c].phase
    case Idle => 0
    case Trying(_, _, k) => if k <= s.budget then s.budget - k + 2 else 2
    case Settled(_, _) => 1
  }

  function Pendings(s: Group): (r: seq<nat>)
    ensures |r| == |s.leases| && forall e :: 0 <= e < |r| ==> r[e] == Pending(s, e)
  {
    seq(|s.leases|, e requires 0 <= e < |s.leases| => Pending(s, e))
  }

  function InHands(s: Group): (r: seq<nat>)
    ensures |r| == |s.workers| && forall c :: 0 <= c < |r| ==> r[c] == InHand(s, c)
  {
    seq(|s.workers|, c requires 0 <= c < |s.workers| => InHand(s, c))
  }

  function WorkLeft(s: Group): nat {
    NatSum(Pendings(s)) + NatSum(InHands(s))
  }

  /** Steps the environment hands out with this label: `PerMessage` for each message from the
      committed offset to the end of an assigned partition, and for each appended message. */
  function Supply(s: Group, l: Label): nat {
    match l
    case Assign(p, c) =>
      if p < |s.ends| && p < |s.committed| && s.committed[p] <= s.ends[p]
      then (s.ends[p] - s.committed[p]) * PerMessage(s) else 0
    case Append(_) => PerMessage(s)
    case _ => 0
  }

  lemma PollSpendsWork(s: Group, c: nat, e: nat)
    requires Inv(s) && CanPoll(s, c, e)
    ensures WorkLeft(Polling(s, c, e)) + 1 <= WorkLeft(s)
  {
    hide SlicesOk, HistoryOk, Covered, StartsAscend, NatSum;
    var t := Polling(s, c, e);
    assert LeaseOk(s, e);
    assert (s.ends[s.leases[e].partition] - s.leases[e].position) * PerMessage(s) ==
           (s.ends[s.leases[e].partition] - s.leases[e].position - 1) * PerMessage(s) + PerMessage(s);
    NatSumUpdate(Pendings(s), e, Pending(t, e));
    NatSumUpdate(InHands(s), c, InHand(t, c));
    assert Pendings(t) == Pendings(s)[e := Pending(t, e)];
    assert InHands(t) == InHands(s)[c := InHand(t, c)];
  }

  lemma ActSpendsWork(s: Group, c: nat, act: Act)
    requires Inv(s) && CanDo(s, c, act)
    ensures WorkLeft(Doing(s, c, act)) + 1 <= WorkLeft(s)
  {
    hide SlicesOk, HistoryOk, Covered, StartsAscend, NatSum;
    var t := Doing(s, c, act);
    assert WorkerOk(s, c);
    assert Pendings(t) == Pendings(s);
    NatSumUpdate(InHands(s), c, InHand(t, c));
    assert InHands(t) == InHands(s)[c := InHand(t, c)];
  }

  lemma AssignSuppliesWork(s: Group, p: nat, c: nat)
    requires Inv(s) && CanAssign(s, p, c)
    ensures WorkLeft(Assigning(s, p, c)) <= WorkLeft(s) + Supply(s, Assign(p, c))
  {
    hide SlicesOk, HistoryOk, Covered, StartsAscend, NatSum;
    var t := Assigning(s, p, c);
    NatSumSnoc(Pendings(s), Pending(t, |s.leases|));
    assert Pendings(t) == Pendings(s) + [Pending(t, |s.leases|)];
    assert InHands(t) == InHands(s);
  }

  lemma LeavingDropsWork(s: Group, c: nat, commit: bool)
    requires Inv(s) && c < |s.workers|
    ensures WorkLeft(Leaving(s, c, commit)) <= WorkLeft(s)
  {
    hide SlicesOk, HistoryOk, Covered, StartsAscend, NatSum;
    var t := Leaving(s, c, commit);
    NatSumBelow(Pendings(t), Pendings(s));
    NatSumUpdate(InHands(s), c, 0);
    assert InHands(t) == InHands(s)[c := 0];
  }

  lemma AppendSuppliesWork(s: Group, p: nat)
    requires Inv(s) && p < |s.ends|
    ensures WorkLeft(Next(s, Append(p))) <= WorkLeft(s) + PerMessage(s)
  {
    hide SlicesOk, HistoryOk, Covered, StartsAscend, NatSum;
    var t := Next(s, Append(p));
    assert InHands(t) == InHands(s);
    if e :| 0 <= e < |s.leases| && s.leases[e].live && s.leases[e].partition == p {
      assert LeaseOk(s, e);
      assert (s.ends[p] + 1 - s.leases[e].position) * PerMessage(s) ==
             (s.ends[p] - s.leases[e].position) * PerMessage(s) + PerMessage(s);
      NatSumUpdate(Pendings(s), e, Pending(t, e));
      assert Pendings(t) == Pendings(s)[e := Pending(t, e)];
    } else {
      assert Pendings(t) == Pendings(s);
    }
  }

  lemma OtherAddsNoWork(s: Group, l: Label)
    requires Inv(s) && Enabled(s, l) && (l.Revoke? || l.Commit? || l.Ack? || l.Reject?)
    ensures WorkLeft(Next(s, l)) <= WorkLeft(s)
  {
    hide SlicesOk, HistoryOk, Covered, StartsAscend, NatSum;
    NatSumBelow(Pendings(Next(s, l)), Pendings(s));
    assert InHands(Next(s, l)) == InHands(s);
  }

  /** Every working step spends work; no disruption adds any beyond what it hands out. */
  lemma StepBalance(s: Group, l: Label)
    requires Inv(s) && Enabled(s, l)
    ensures WorkLeft(Next(s, l)) + (if Working(l) then 1 else 0) <= WorkLeft(s) + Supply(s, l)
  {
    match l {
      case Poll(c, e) => PollSpendsWork(s, c, e);
      case Do(c, act) => ActSpendsWork(s, c, act);
      case _ => DisruptionBalance(s, l);
    }
  }

  lemma DisruptionBalance(s: Group, l: Label)
    requires Inv(s) && Enabled(s, l) && !Working(l)
    ensures WorkLeft(Next(s, l)) <= WorkLeft(s) + Supply(s, l)
  {
    match l {
      case Assign(p, c) => AssignSuppliesWork(s, p, c);
      case Crash(c) => LeavingDropsWork(s, c, false);
      case Close(c) => LeavingDropsWork(s, c, true);
      case Append(p) => AppendSuppliesWork(s, p);
      case _ => OtherAddsNoWork(s, l);
    }
  }

  // ---- whole runs ----

  function WorkingSteps(run: seq<Label>): nat {
    if run == [] then 0 else (if Working(run[0]) then 1 else 0) + WorkingSteps(run[1..])
  }

  function Supplied(s: Group, run: seq<Label>): nat
    requires Legal(s, run)
    decreases |run|
  {
    if run == [] then 0 else Supply(s, run[0]) + Supplied(Next(s, run[0]), run[1..])
  }

  /** However often consumers crash and partitions move, the working steps of a run are bounded by
      what its assignments and appends handed out, plus what was left at the start. */
  lemma {:induction false} WorkIsBounded(s: Group, run: seq<Label>)
    requires Inv(s) && Legal(s, run)
    ensures WorkingSteps(run) + WorkLeft(Exec(s, run)) <= WorkLeft(s) + Supplied(s, run)
    decreases |run|
  {
    if run != [] {
      var l, t := run[0], Next(s, run[0]);
      StepKeepsInv(s, l);
      StepBalance(s, l);
      WorkIsBounded(t, run[1..]);
    }
  }

  function Assignments(run: seq<Label>): nat {
    if run == [] then 0 else Assignment(run[0]) + Assignments(run[1..])
  }

  predicate Fixed(run: seq<Label>) {
    forall i :: 0 <= i < |run| ==> !run[i].Append?
  }

  function Assignment(l: Label): nat {
    if l.Assign? then 1 else 0
  }

  lemma {:induction false} SuppliedByAssignments(s: Group, run: seq<Label>, n: nat)
    requires Legal(s, run) && Fixed(run) && forall p :: 0 <= p < |s.ends| ==> s.ends[p] <= n
    ensures Supplied(s, run) <= Assignments(run) * (n * PerMessage(s))
    decreases |run|
  {
    if run != [] {
      hide Next, Enabled, Supply, Fixed, PerMessage;
      var l, t := run[0], Next(s, run[0]);
      FixedRest(run);
      LegalHead(s, run);
      EndsStay(s, l);
      SuppliedByAssignments(t, run[1..], n);
      OneSupply(s, l, n);
      AddScaled(Supply(s, l), Supplied(t, run[1..]), Assignment(l), Assignments(run[1..]), n * PerMessage(s));
    }
  }

  lemma FixedRest(run: seq<Label>)
    requires Fixed(run) && run != []
    ensures !run[0].Append? && Fixed(run[1..])
  {
    forall i | 0 <= i < |run[1..]| ensures run[1..][i] == run[i + 1] {}
  }

  lemma LegalHead(s: Group, run: seq<Label>)
    requires Legal(s, run) && run != []
    ensures Enabled(s, run[0]) && Legal(Next(s, run[0]), run[1..])
  {
  }

  lemma EndsStay(s: Group, l: Label)
    requires Enabled(s, l) && !l.Append?
    ensures Next(s, l).ends == s.ends && PerMessage(Next(s, l)) == PerMessage(s)
  {
  }

  lemma OneSupply(s: Group, l: Label, n: nat)
    requires !l.Append? && forall p :: 0 <= p < |s.ends| ==> s.ends[p] <= n
    ensures Supply(s, l) <= Assignment(l) * (n * PerMessage(s))
  {
    hide PerMessage;
    if l.Assign? && l.p < |s.ends| && l.p < |s.committed| && s.committed[l.p] <= s.ends[l.p] {
      ScaleNat(s.ends[l.p] - s.committed[l.p], n, PerMessage(s));
    }
  }

  lemma ScaleNat(a: nat, b: nat, k: nat)
    requires a <= b
    ensures a * k <= b * k
  {
  }

  lemma AddScaled(x: nat, y: nat, a: nat, b: nat, k: nat)
    requires x <= a * k && y <= b * k
    ensures x + y <= (a + b) * k
  {
  }

  /** A finite log and finitely many reassignments leave only finitely many working steps: at most
      `n * (budget + 2)` for each assignment the run makes, with `n` the longest partition. */
  lemma FiniteLogFiniteWork(s: Group, run: seq<Label>, n: nat)
    requires Initial(s) && Legal(s, run) && Fixed(run)
    requires forall p :: 0 <= p < |s.ends| ==> s.ends[p] <= n
    ensures WorkingSteps(run) <= Assignments(run) * (n * (s.budget + 2))
  {
    hide Inv, Initial, Legal, Exec, Fixed, WorkLeft, Supplied, WorkingSteps, Assignments;
    InitialInv(s);
    NothingToDoYet(s);
    WorkIsBounded(s, run);
    SuppliedByAssignments(s, run, n);
  }

  lemma NothingToDoYet(s: Group)
    requires Initial(s)
    ensures WorkLeft(s) == 0
  {
    NatSumZero(Pendings(s));
    NatSumZero(InHands(s));
  }

  /** A store is refused only after the partition was lost. */
  predicate Faithful(s: Group, l: Label) {
    l.Do? && l.act == Stored(false) && l.c < |s.workers| && s.workers[l.c].lease < |s.leases| ==>
      !s.leases[s.workers[l.c].lease].live
  }

  predicate FaithfulRun(s: Group, run: seq<Label>)
    requires Legal(s, run)
    decreases |run|
  {
    run == [] || (Faithful(s, run[0]) && FaithfulRun(Next(s, run[0]), run[1..]))
  }

  /** No message blocks its partition: a working step is possible exactly while work is left. */
  lemma NoMessageBlocks(s: Group)
    requires Inv(s)
    ensures WorkLeft(s) > 0 <==> exists l :: Working(l) && Faithful(s, l) && Enabled(s, l)
  {
    if l :| Working(l) && Faithful(s, l) && Enabled(s, l) {
      StepBalance(s, l);
    }
    if WorkLeft(s) > 0 {
      var l := SomeWork(s);
    }
  }

  lemma SomeWork(s: Group) returns (l: Label)
    requires Inv(s) && WorkLeft(s) > 0
    ensures Working(l) && Faithful(s, l) && Enabled(s, l)
  {
    NatSumZero(Pendings(s));
    NatSumZero(InHands(s));
    if c :| 0 <= c < |s.workers| && !s.workers[c].phase.Idle? {
      l := StepInHand(s, c);
    } else {
      assert forall c :: 0 <= c < |s.workers| ==> InHands(s)[c] == 0;
      var e :| 0 <= e < |s.leases| && Pendings(s)[e] != 0;
      assert LeaseOk(s, e);
      l := Poll(s.leases[e].owner, e);
    }
  }

  lemma StepInHand(s: Group, c: nat) returns (l: Label)
    requires Inv(s) && c < |s.workers| && !s.workers[c].phase.Idle?
    ensures Working(l) && Faithful(s, l) && Enabled(s, l)
  {
    assert WorkerOk(s, c);
    if s.workers[c].phase.Trying? {
      l := Do(c, Accepted);
    } else {
      l := Do(c, Stored(s.leases[s.workers[c].lease].live));
    }
  }

  // ---- a drained group commits the ends of the log ----

  /** What a live assignment has settled is stored, except for the message about to be stored. */
  predicate StoreUpToDate(s: Group) {
    forall e :: 0 <= e < |s.leases| && s.leases[e].live && s.leases[e].owner < |s.workers| ==>
      var w := s.workers[s.leases[e].owner];
      s.leases[e].done == s.leases[e].stored + (if w.phase.Settled? && w.lease == e then 1 else 0)
  }

  lemma PollKeepsStores(s: Group, c: nat, e: nat)
    requires Inv(s) && CanPoll(s, c, e) && StoreUpToDate(s)
    ensures StoreUpToDate(Polling(s, c, e))
  {
    hide SlicesOk, HistoryOk, Covered, StartsAscend;
    assert WorkerOk(s, c);
    forall d | 0 <= d < |s.leases| && s.leases[d].live ensures LeaseOk(s, d) {}
  }

  lemma DoKeepsStores(s: Group, c: nat, act: Act)
    requires Inv(s) && CanDo(s, c, act) && Faithful(s, Do(c, act)) && StoreUpToDate(s)
    ensures StoreUpToDate(Doing(s, c, act))
  {
    hide SlicesOk, HistoryOk, Covered, StartsAscend;
    assert WorkerOk(s, c);
    forall d | 0 <= d < |s.leases| && s.leases[d].live ensures LeaseOk(s, d) {}
  }

  lemma StepKeepsStores(s: Group, l: Label)
    requires Inv(s) && Enabled(s, l) && Faithful(s, l) && StoreUpToDate(s)
    ensures StoreUpToDate(Next(s, l))
  {
    hide SlicesOk, HistoryOk, Covered, StartsAscend;
    match l {
      case Poll(c, e) => PollKeepsStores(s, c, e);
      case Do(c, act) => DoKeepsStores(s, c, act);
      case Assign(p, c) =>
      case _ =>
        forall d | 0 <= d < |s.leases| && s.leases[d].live ensures LeaseOk(s, d) {}
    }
  }

  lemma {:induction false} RunKeepsStores(s: Group, run: seq<Label>)
    requires Inv(s) && Legal(s, run) && FaithfulRun(s, run) && StoreUpToDate(s)
    ensures StoreUpToDate(Exec(s, run))
    decreases |run|
  {
    if run != [] {
      StepKeepsInv(s, run[0]);
      StepKeepsStores(s, run[0]);
      RunKeepsStores(Next(s, run[0]), run[1..]);
    }
  }

  /** Consumers `k`, `k + 1`, ... close one after the other. */
  function Closers(k: nat, n: nat): seq<Label>
    requires k <= n
    decreases n - k
  {
    if k == n then [] else [Close(k)] + Closers(k + 1, n)
  }

  /** An owner among `k..` holds the end of `p` as its stored offset. */
  predicate WillCommit(s: Group, k: nat, p: nat)
    requires p < |s.ends|
  {
    exists e :: 0 <= e < |s.leases| && s.leases[e].live && s.leases[e].partition == p &&
      k <= s.leases[e].owner && s.leases[e].stored == s.ends[p]
  }

  predicate AlmostCommitted(s: Group, k: nat)
    requires |s.committed| == |s.ends|
  {
    forall p :: 0 <= p < |s.ends| ==> s.committed[p] == s.ends[p] || WillCommit(s, k, p)
  }

  lemma CloseCommits(s: Group, k: nat)
    requires Inv(s) && k < |s.workers| && AlmostCommitted(s, k)
    ensures Inv(Leaving(s, k, true)) && AlmostCommitted(Leaving(s, k, true), k + 1)
  {
    var t := Leaving(s, k, true);
    LeaveKeepsInv(s, k, true);
    forall p | 0 <= p < |s.ends| ensures t.committed[p] == t.ends[p] || WillCommit(t, k + 1, p) {
      SettledCommit(s, k, p);
      if s.committed[p] != s.ends[p] {
        assert WillCommit(s, k, p);
        var e :| 0 <= e < |s.leases| && s.leases[e].live && s.leases[e].partition == p &&
          k <= s.leases[e].owner && s.leases[e].stored == s.ends[p];
        assert s.leases[e].owner != k ==> t.leases[e] == s.leases[e];
      }
    }
  }

  lemma NobodyLeft(s: Group)
    requires Inv(s) && AlmostCommitted(s, |s.workers|)
    ensures s.committed == s.ends
  {
    forall e | 0 <= e < |s.leases| ensures s.leases[e].owner < |s.workers| {
      assert LeaseOk(s, e);
    }
    assert forall p :: 0 <= p < |s.ends| ==> !WillCommit(s, |s.workers|, p);
  }

  lemma {:induction false} AllClose(s: Group, k: nat)
    requires Inv(s) && k <= |s.workers| && AlmostCommitted(s, k)
    ensures Legal(s, Closers(k, |s.workers|))
    ensures Exec(s, Closers(k, |s.workers|)).committed == s.ends
    decreases |s.workers| - k
  {
    if k == |s.workers| {
      NobodyLeft(s);
    } else {
      CloseCommits(s, k);
      AllClose(Leaving(s, k, true), k + 1);
      Replay.LegalCons(s, Close(k), Closers(k + 1, |s.workers|));
    }
  }

  lemma ZeroProduct(a: nat, k: nat)
    requires 0 < k
    ensures a * k == 0 ==> a == 0
  {
  }

  lemma NoWorkLeft(t: Group, c: nat, e: nat)
    requires WorkLeft(t) == 0 && c < |t.workers| && e < |t.leases|
    requires t.leases[e].live && t.leases[e].partition < |t.ends|
    requires t.leases[e].position <= t.ends[t.leases[e].partition]
    ensures t.workers[c].phase.Idle? && t.leases[e].position == t.ends[t.leases[e].partition]
  {
    NatSumZero(Pendings(t));
    NatSumZero(InHands(t));
    assert InHands(t)[c] == 0 && Pendings(t)[e] == 0;
    ZeroProduct(t.ends[t.leases[e].partition] - t.leases[e].position, PerMessage(t));
  }

  lemma DrainedIsStored(t: Group, p: nat)
    requires Inv(t) && StoreUpToDate(t) && WorkLeft(t) == 0 && p < |t.ends| && Replay.Owned(t, p)
    ensures WillCommit(t, 0, p)
  {
    var e :| 0 <= e < |t.leases| && t.leases[e].live && t.leases[e].partition == p;
    assert LeaseOk(t, e);
    NoWorkLeft(t, t.leases[e].owner, e);
    var w := t.workers[t.leases[e].owner];
    assert t.leases[e].done == t.leases[e].stored + (if w.phase.Settled? && w.lease == e then 1 else 0);
  }

  /** The log drains: after any faithful run that leaves no work and every partition owned, the
      owners' graceful close commits the end of every partition. */
  lemma DrainedGroupCommitsEverything(s: Group, run: seq<Label>)
    requires Initial(s) && Legal(s, run) && FaithfulRun(s, run)
    requires WorkLeft(Exec(s, run)) == 0
    requires forall p :: 0 <= p < |Exec(s, run).ends| ==> Replay.Owned(Exec(s, run), p)
    ensures var t := Exec(s, run);
      Legal(t, Closers(0, |t.workers|)) && Exec(t, Closers(0, |t.workers|)).committed == t.ends
  {
    var t := Exec(s, run);
    InitialInv(s);
    RunKeepsInv(s, run);
    RunKeepsStores(s, run);
    forall p | 0 <= p < |t.ends| ensures WillCommit(t, 0, p) {
      DrainedIsStored(t, p);
    }
    AllClose(t, 0);
  }

  /** Uninterrupted work always finishes: from any state of the group a faithful run of working
      steps alone leaves nothing to do, and takes at most `WorkLeft` steps. */
  lemma {:induction false} UninterruptedWorkFinishes(s: Group) returns (run: seq<Label>)
    requires Inv(s)
    ensures Legal(s, run) && FaithfulRun(s, run) && WorkLeft(Exec(s, run)) == 0
    ensures WorkingSteps(run) == |run| <= WorkLeft(s)
    ensures forall p :: Replay.Owned(s, p) ==> Replay.Owned(Exec(s, run), p)
    decreases WorkLeft(s)
  {
    if WorkLeft(s) == 0 {
      run := [];
    } else {
      var l := SomeWork(s);
      var t := Next(s, l);
      StepKeepsInv(s, l);
      StepBalance(s, l);
      WorkKeepsOwners(s, l);
      var rest := UninterruptedWorkFinishes(t);
      Replay.LegalCons(s, l, rest);
      run := [l] + rest;
      assert run[1..] == rest;
    }
  }

  lemma WorkKeepsOwners(s: Group, l: Label)
    requires Working(l) && Enabled(s, l)
    ensures forall p :: Replay.Owned(s, p) ==> Replay.Owned(Next(s, l), p)
  {
    forall p | Replay.Owned(s, p) ensures Replay.Owned(Next(s, l), p) {
      var e :| 0 <= e < |s.leases| && s.leases[e].live && s.leases[e].partition == p;
      assert Next(s, l).leases[e].live && Next(s, l).leases[e].partition == p;
    }
  }
}
