/** Consumer apps as members of the group: any number of them at once, each over any number of
    lives, started, killed or closed, started again. Whatever the other consumers, the coordinator
    and the broker do between their acts, every act of an app is a legal step of the protocol, so the
    protocol's laws cover the apps. */
module Refinement {
  import opened Control
  import opened Delivery
  import opened Replay
  import Drain
  import Consumer

  /** A life of an app ends when its process is killed, or when its `close()` has committed. */
  datatype Ending = Killed | Closed

  /** App `c` acts, or its life ends (the next act of `c` begins a new one), or someone else takes a
      step. */
  datatype Event = Own(c: nat, act: Act) | Ends(c: nat, ending: Ending) | Outside(step: Label)

  /** The step is not one that moves one of the apps. */
  predicate Elsewhere(l: Label, apps: set<nat>) {
    (l.Poll? || l.Do? || l.Crash? || l.Close?) ==> l.c !in apps
  }

  predicate IsLeaseOn(l: Lease, c: nat, p: nat) {
    l.live && l.owner == c && l.partition == p
  }

  /** The live assignment of `p` to `c`, or the number of assignments if there is none. */
  function LeaseOn(leases: seq<Lease>, c: nat, p: nat): (e: nat)
    ensures e <= |leases|
    ensures e < |leases| ==> IsLeaseOn(leases[e], c, p)
    ensures forall d :: 0 <= d < e ==> !IsLeaseOn(leases[d], c, p)
  {
    if leases == [] || IsLeaseOn(leases[0], c, p) then 0 else 1 + LeaseOn(leases[1..], c, p)
  }

  function Leave(c: nat, ending: Ending): Label {
    if ending.Closed? then Close(c) else Crash(c)
  }

  function LabelOf(s: Group, ev: Event): Label {
    match ev
    case Outside(l) => l
    case Ends(c, ending) => Leave(c, ending)
    case Own(c, act) => if act.Polled? then Poll(c, LeaseOn(s.leases, c, act.partition)) else Do(c, act)
  }

  /** What the environment owes: poll hands out the next offset of an owned partition, a store
      succeeds only on a live assignment, and other steps are themselves legal. */
  predicate Grants(s: Group, apps: set<nat>, ev: Event) {
    match ev
    case Outside(l) => Enabled(s, l) && Elsewhere(l, apps)
    case Ends(c, _) => c in apps && c < |s.workers|
    case Own(c, act) =>
      c in apps && c < |s.workers| &&
      if act.Polled? then
        var e := LeaseOn(s.leases, c, act.partition);
        e < |s.leases| && act.partition < |s.ends| &&
        s.leases[e].position == act.offset < s.ends[act.partition]
      else
        act == Stored(true) ==> s.workers[c].lease < |s.leases| && s.leases[s.workers[c].lease].live
  }

  /** What app `c` has done in its present life. */
  function ActsOf(schedule: seq<Event>, c: nat): seq<Act> {
    if schedule == [] then []
    else
      var before := ActsOf(schedule[..|schedule| - 1], c);
      match schedule[|schedule| - 1]
      case Own(d, act) => if c == d then before + [act] else before
      case Ends(d, _) => if c == d then [] else before
      case Outside(_) => before
  }

  /** The acts are some beginning of what an app does, on some configuration and inputs: it may be
      interrupted anywhere, in the middle of a message too. */
  ghost predicate FromApp(budget: nat, acts: seq<Act>) {
    exists cfg: Consumer.Config, inputs: seq<Consumer.Input> ::
      1 <= cfg.policy.maxAttempts <= budget && acts <= Consumer.Loop(cfg, inputs).books.trace
  }

  function GroupAfter(s: Group, schedule: seq<Event>): Group {
    if schedule == [] then s
    else
      var t := GroupAfter(s, schedule[..|schedule| - 1]);
      var l := LabelOf(t, schedule[|schedule| - 1]);
      if Enabled(t, l) then Next(t, l) else t
  }

  function Labels(s: Group, schedule: seq<Event>): seq<Label> {
    if schedule == [] then []
    else
      var before := schedule[..|schedule| - 1];
      Labels(s, before) + [LabelOf(GroupAfter(s, before), schedule[|schedule| - 1])]
  }

  /** Event by event: the environment keeps its side, and in each of its lives each app does what the
      app does. */
  ghost predicate RunsApps(s: Group, apps: set<nat>, schedule: seq<Event>) {
    schedule == [] ||
    var before, ev := schedule[..|schedule| - 1], schedule[|schedule| - 1];
    RunsApps(s, apps, before) && Grants(GroupAfter(s, before), apps, ev) &&
    (ev.Own? ==> FromApp(s.budget, ActsOf(schedule, ev.c)))
  }

  // ---- every act is a legal step ----

  lemma {:induction false} LegalSnoc(s: Group, run: seq<Label>, l: Label)
    requires Legal(s, run) && Enabled(Exec(s, run), l)
    ensures Legal(s, run + [l]) && Exec(s, run + [l]) == Next(Exec(s, run), l)
    decreases |run|
  {
    LegalOne(Exec(s, run), l);
    RunsAppend(s, run, [l]);
  }

  lemma AppFollows(budget: nat, acts: seq<Act>)
    requires FromApp(budget, acts)
    ensures Follows(budget, acts)
  {
    hide Consumer.Loop;
    var cfg: Consumer.Config, inputs: seq<Consumer.Input> :|
      1 <= cfg.policy.maxAttempts <= budget && acts <= Consumer.Loop(cfg, inputs).books.trace;
    var trace := Consumer.Loop(cfg, inputs).books.trace;
    Consumer.LoopFollowsProtocol(cfg, inputs);
    LargerBudgetFollows(cfg.policy.maxAttempts, budget, trace);
    PrefixFollows(budget, trace, |acts|);
    assert trace[..|acts|] == acts;
  }

  /** Where app `c` stands is where the acts of its present life lead. */
  predicate InStep(s: Group, schedule: seq<Event>, c: nat)
    requires c < |s.workers|
  {
    Follows(s.budget, ActsOf(schedule, c)) && s.workers[c].phase == Reached(s.budget, ActsOf(schedule, c))
  }

  predicate AllInStep(s: Group, apps: set<nat>, schedule: seq<Event>) {
    forall c :: c in apps && c < |s.workers| ==> InStep(s, schedule, c)
  }

  /** A step that does not move `c` leaves its worker alone. */
  lemma StepKeepsWorker(s: Group, l: Label, c: nat)
    requires Enabled(s, l) && Elsewhere(l, {c}) && c < |s.workers|
    ensures |Next(s, l).workers| == |s.workers| && Next(s, l).budget == s.budget
    ensures Next(s, l).workers[c] == s.workers[c]
  {
    hide Dropped, Settle;
  }

  lemma StepKeepsSize(s: Group, l: Label)
    requires Enabled(s, l)
    ensures |Next(s, l).workers| == |s.workers| && Next(s, l).budget == s.budget
  {
    hide Dropped, Settle;
  }

  /** An act the control flow allows and the environment grants is enabled, and moves `c` just so. */
  lemma OwnActIsEnabled(s: Group, apps: set<nat>, c: nat, act: Act)
    requires Inv(s) && Grants(s, apps, Own(c, act)) && Allowed(s.budget, s.workers[c].phase, act)
    ensures var l := LabelOf(s, Own(c, act));
      Enabled(s, l) && c < |Next(s, l).workers| && Next(s, l).workers[c].phase == After(s.budget, s.workers[c].phase, act)
  {
    hide SlicesOk, HistoryOk, Covered, StartsAscend, OneOwner;
    assert WorkerOk(s, c);
  }

  /** The environment grants no less than the protocol allows: an act is granted to an app whose control
      flow is ready for it exactly if the step is enabled, and a poll hands out what the app says. */
  lemma GrantsExactly(s: Group, apps: set<nat>, c: nat, act: Act)
    requires Inv(s) && c in apps && c < |s.workers|
    ensures Grants(s, apps, Own(c, act)) && Allowed(s.budget, s.workers[c].phase, act) <==>
      (if act.Polled? then
        exists e: nat :: Enabled(s, Poll(c, e)) && s.leases[e].partition == act.partition && s.leases[e].position == act.offset
      else Enabled(s, Do(c, act)))
  {
    hide SlicesOk, HistoryOk, Covered, StartsAscend;
    assert WorkerOk(s, c);
    var e := LeaseOn(s.leases, c, if act.Polled? then act.partition else 0);
    if act.Polled? {
      if d: nat :| Enabled(s, Poll(c, d)) && s.leases[d].partition == act.partition && s.leases[d].position == act.offset {
        assert IsLeaseOn(s.leases[d], c, act.partition);
        assert d == e;
      }
      if Grants(s, apps, Own(c, act)) && Allowed(s.budget, s.workers[c].phase, act) {
        assert Enabled(s, Poll(c, e));
      }
    }
  }

  /** The event is enabled, and the app it concerns stays in step. */
  lemma EventIsEnabled(s: Group, apps: set<nat>, schedule: seq<Event>)
    requires schedule != [] && Inv(s) && AllInStep(s, apps, schedule[..|schedule| - 1])
    requires Grants(s, apps, schedule[|schedule| - 1])
    requires var ev := schedule[|schedule| - 1]; ev.Own? ==> FromApp(s.budget, ActsOf(schedule, ev.c))
    ensures var ev := schedule[|schedule| - 1];
      var l := LabelOf(s, ev);
      Enabled(s, l) && |Next(s, l).workers| == |s.workers| && Next(s, l).budget == s.budget &&
      (!ev.Outside? ==> ev.c in apps && ev.c < |s.workers| && InStep(Next(s, l), schedule, ev.c))
  {
    hide Inv, Follows, Reached, FromApp;
    var before, ev := schedule[..|schedule| - 1], schedule[|schedule| - 1];
    if ev.Own? {
      var acts := ActsOf(schedule, ev.c);
      AppFollows(s.budget, acts);
      assert acts[..|acts| - 1] == ActsOf(before, ev.c);
      assert InStep(s, before, ev.c);
      LastAct(s.budget, acts);
      OwnActIsEnabled(s, apps, ev.c, ev.act);
    } else if ev.Ends? {
      EmptyTrace(s.budget);
    }
    StepKeepsSize(s, LabelOf(s, ev));
  }

  lemma EmptyTrace(budget: nat)
    ensures Follows(budget, []) && Reached(budget, []) == Idle
  {
  }

  lemma LastAct(budget: nat, acts: seq<Act>)
    requires Follows(budget, acts) && acts != []
    ensures var before := acts[..|acts| - 1];
      Follows(budget, before) && Allowed(budget, Reached(budget, before), acts[|acts| - 1]) &&
      Reached(budget, acts) == After(budget, Reached(budget, before), acts[|acts| - 1])
  {
  }

  /** The event leaves every other app where it was. */
  lemma OthersStayInStep(s: Group, apps: set<nat>, schedule: seq<Event>, c: nat)
    requires schedule != [] && AllInStep(s, apps, schedule[..|schedule| - 1]) && c in apps && c < |s.workers|
    requires Grants(s, apps, schedule[|schedule| - 1]) && Enabled(s, LabelOf(s, schedule[|schedule| - 1]))
    requires var ev := schedule[|schedule| - 1]; !ev.Outside? ==> ev.c != c
    ensures var t := Next(s, LabelOf(s, schedule[|schedule| - 1])); c < |t.workers| && InStep(t, schedule, c)
  {
    hide Enabled, Next, Follows, Reached;
    assert ActsOf(schedule, c) == ActsOf(schedule[..|schedule| - 1], c);
    assert InStep(s, schedule[..|schedule| - 1], c);
    StepKeepsWorker(s, LabelOf(s, schedule[|schedule| - 1]), c);
  }

  lemma EventKeepsStep(s: Group, apps: set<nat>, schedule: seq<Event>)
    requires schedule != [] && Inv(s) && AllInStep(s, apps, schedule[..|schedule| - 1])
    requires Grants(s, apps, schedule[|schedule| - 1])
    requires var ev := schedule[|schedule| - 1]; ev.Own? ==> FromApp(s.budget, ActsOf(schedule, ev.c))
    ensures var l := LabelOf(s, schedule[|schedule| - 1]);
      Enabled(s, l) && AllInStep(Next(s, l), apps, schedule) && Inv(Next(s, l)) && Next(s, l).budget == s.budget
  {
    hide Inv, Grants, Enabled, Next, ActsOf, FromApp, InStep, LabelOf;
    var ev := schedule[|schedule| - 1];
    var l := LabelOf(s, ev);
    EventIsEnabled(s, apps, schedule);
    StepKeepsInv(s, l);
    forall c | c in apps && c < |s.workers| ensures InStep(Next(s, l), schedule, c) {
      if ev.Outside? || ev.c != c {
        OthersStayInStep(s, apps, schedule, c);
      }
    }
  }

  /** Any interleaving of any apps, over any lives, is a legal run of the group, and at its end each
      app stands where its own code stands. */
  lemma {:induction false} AppsAreLegal(s: Group, apps: set<nat>, schedule: seq<Event>)
    requires Initial(s) && RunsApps(s, apps, schedule)
    ensures var t := GroupAfter(s, schedule);
      Legal(s, Labels(s, schedule)) && Exec(s, Labels(s, schedule)) == t && Inv(t) && t.budget == s.budget &&
      AllInStep(t, apps, schedule)
  {
    if schedule == [] {
      InitialInv(s);
    } else {
      hide Initial, Inv, Grants, Enabled, Next, ActsOf, FromApp, AllInStep;
      var before := schedule[..|schedule| - 1];
      AppsAreLegal(s, apps, before);
      var t := GroupAfter(s, before);
      EventKeepsStep(t, apps, schedule);
      LegalSnoc(s, Labels(s, before), LabelOf(t, schedule[|schedule| - 1]));
    }
  }

  // ---- what this means for the apps ----

  /** At-least-once for the apps themselves, at any moment of any of their lives: below every committed
      offset the message was accepted by a sink or handed to the DLQ producer; it is durable exactly
      if some step secured it, and certainly if each of its own letters was reported delivered. */
  lemma AppsLoseNothing(s: Group, apps: set<nat>, schedule: seq<Event>, p: nat, o: nat)
    requires Initial(s) && RunsApps(s, apps, schedule)
    requires p < |s.origin| && s.origin[p] <= o
    ensures Legal(s, Labels(s, schedule))
    ensures var t := GroupAfter(s, schedule);
      |t.committed| == |s.origin| &&
      (o < t.committed[p] ==>
        Handled(t.history, p, o) &&
        (Durable(t, p, o) <==> Secured(s, Labels(s, schedule), p, o)) &&
        (Confirmed(s, Labels(s, schedule), p, o) ==> Durable(t, p, o)))
  {
    hide Inv, Legal, Exec, RunsApps, GroupAfter, Labels, AllInStep, Durable, Secured, Confirmed, Initial;
    AppsAreLegal(s, apps, schedule);
    var run := Labels(s, schedule);
    CommittedIsTerminal(s, run, p, o);
    if o < Exec(s, run).committed[p] {
      CommitIsSafeExactly(s, run, p, o);
    }
  }

  /** A process that ends with a message in hand, or settled and not stored, leaves it uncommitted and
      its partition without an owner. */
  lemma LeavingFrees(s: Group, c: nat, ending: Ending)
    requires Inv(s) && c < |s.workers| && !s.workers[c].phase.Idle?
    requires s.workers[c].lease < |s.leases| && s.leases[s.workers[c].lease].live
    ensures var t := Next(s, Leave(c, ending));
      var p := s.workers[c].phase.partition;
      |t.leases| == |s.leases| && p < |t.committed| && t.committed[p] <= s.workers[c].phase.offset && !Owned(t, p)
  {
    assert WorkerOk(s, c) && LeaseOk(s, s.workers[c].lease);
    hide SlicesOk, HistoryOk, Covered, Settle;
    SettledCommit(s, c, s.workers[c].phase.partition);
  }

  /** A crash mid-message replays that message rather than losing it. If a life of an app ends while
      it has a message in hand (or settled, not stored) of a partition it owns, then in every
      continuation that message is committed only after a later assignment has handled it anew. */
  lemma InterruptedMessageIsReplayed(s: Group, apps: set<nat>, schedule: seq<Event>, c: nat, ending: Ending,
                                     more: seq<Label>)
    requires Initial(s) && RunsApps(s, apps, schedule) && c < |GroupAfter(s, schedule).workers|
    requires var t := GroupAfter(s, schedule);
      !t.workers[c].phase.Idle? && t.workers[c].lease < |t.leases| && t.leases[t.workers[c].lease].live &&
      Legal(Next(t, Leave(c, ending)), more)
    ensures var t := GroupAfter(s, schedule);
      var u := Exec(Next(t, Leave(c, ending)), more);
      var p, o := t.workers[c].phase.partition, t.workers[c].phase.offset;
      p < |u.committed| &&
      (o < u.committed[p] ==>
        exists i :: 0 <= i < |u.history| && |t.leases| <= u.history[i].lease && Concerns(u.history[i], p, o))
  {
    hide Inv, Initial, Legal, Exec, RunsApps, GroupAfter, AllInStep, Labels, Owned, Concerns, Dropped, Settle;
    AppsAreLegal(s, apps, schedule);
    var t := GroupAfter(s, schedule);
    LeavingFrees(t, c, ending);
    StepKeepsInv(t, Leave(c, ending));
    UncommittedIsReplayed(Next(t, Leave(c, ending)), more, t.workers[c].phase.partition, t.workers[c].phase.offset);
  }

  /** An exception that escapes from decoding, from the sink, from publishing or from storing leaves
      the loop with the message not stored, so the close that follows does not commit it. */
  lemma EscapeCommitsNothing(s: Group, apps: set<nat>, schedule: seq<Event>, c: nat,
                             cfg: Consumer.Config, inputs: seq<Consumer.Input>)
    requires Initial(s) && RunsApps(s, apps, schedule) && c in apps && c < |GroupAfter(s, schedule).workers|
    requires 1 <= cfg.policy.maxAttempts <= s.budget && ActsOf(schedule, c) == Consumer.Loop(cfg, inputs).books.trace
    requires LeftByException(Consumer.Loop(cfg, inputs))
    ensures var t := GroupAfter(s, schedule);
      var u := GroupAfter(s, schedule + [Ends(c, Closed)]);
      var w := t.workers[c];
      !w.phase.Idle? && w.lease < |t.leases| &&
      (t.leases[w.lease].live ==>
        w.phase.partition < |u.committed| && u.committed[w.phase.partition] <= w.phase.offset)
  {
    EndOfLife(s, schedule, c);
    hide Leaving, Initial, Inv, Legal, Exec, RunsApps, GroupAfter, AllInStep, Labels, ActsOf, Consumer.Loop;
    AppStands(s, apps, schedule, c, cfg, inputs);
    AppsAreLegal(s, apps, schedule);
    UnstoredIsSpared(GroupAfter(s, schedule), c);
  }

  predicate LeftByException(p: Consumer.Progress) {
    p.Stopped? && (p.exit.DecodeEscaped? || p.exit.SinkEscaped? || p.exit.PublishFailed? || p.exit.StoreFailed?)
  }

  /** Closing does not commit the message `c` has not stored, if its partition is still its own. */
  predicate CloseSpares(s: Group, c: nat)
    requires c < |s.workers| && !s.workers[c].phase.Idle?
  {
    var w := s.workers[c];
    w.lease < |s.leases| &&
    (s.leases[w.lease].live ==>
      w.phase.partition < |Leaving(s, c, true).committed| &&
      Leaving(s, c, true).committed[w.phase.partition] <= w.phase.offset)
  }

  lemma UnstoredIsSpared(s: Group, c: nat)
    requires Inv(s) && c < |s.workers| && !s.workers[c].phase.Idle?
    ensures CloseSpares(s, c)
  {
    assert WorkerOk(s, c);
    hide Inv, Dropped, Settle, Owned;
    if s.leases[s.workers[c].lease].live {
      LeavingFrees(s, c, Closed);
    }
  }

  /** Where an app stands in the group when its loop has ended. */
  lemma AppStands(s: Group, apps: set<nat>, schedule: seq<Event>, c: nat,
                  cfg: Consumer.Config, inputs: seq<Consumer.Input>)
    requires Initial(s) && RunsApps(s, apps, schedule) && c in apps && c < |GroupAfter(s, schedule).workers|
    requires 1 <= cfg.policy.maxAttempts <= s.budget && ActsOf(schedule, c) == Consumer.Loop(cfg, inputs).books.trace
    ensures Consumer.Stands(Consumer.Loop(cfg, inputs), GroupAfter(s, schedule).workers[c].phase)
  {
    hide Initial, Inv, Legal, Exec, RunsApps, GroupAfter, Labels, ActsOf, Follows, Reached, Consumer.Loop, Consumer.Stands;
    AppsAreLegal(s, apps, schedule);
    var t := GroupAfter(s, schedule);
    assert InStep(t, schedule, c);
    Consumer.LoopFollowsProtocol(cfg, inputs);
    LargerBudgetFollows(cfg.policy.maxAttempts, s.budget, ActsOf(schedule, c));
  }

  // ---- the apps drain their partitions ----

  predicate AllFaithful(s: Group, run: seq<Label>) {
    Legal(s, run) && Drain.FaithfulRun(s, run)
  }

  /** What a graceful close commits of an owned partition: everything polled, except the message in
      hand. */
  lemma CloseCommitsAllButInHand(s: Group, c: nat, e: nat)
    requires Inv(s) && Drain.StoreUpToDate(s) && c < |s.workers|
    requires e < |s.leases| && s.leases[e].live && s.leases[e].owner == c
    ensures var t := Leaving(s, c, true);
      var p := s.leases[e].partition;
      p < |t.committed| && t.committed[p] ==
        s.leases[e].position - (if !s.workers[c].phase.Idle? && s.workers[c].lease == e then 1 else 0)
  {
    assert WorkerOk(s, c) && LeaseOk(s, e);
    hide SlicesOk, HistoryOk, Covered, Settle, Dropped;
    SettledCommit(s, c, s.leases[e].partition);
  }

  /** The live assignment of `p` is the app's, and poll has handed out all of it. */
  predicate Exhausted(s: Group, c: nat, p: nat) {
    p < |s.ends| &&
    exists e :: 0 <= e < |s.leases| && IsLeaseOn(s.leases[e], c, p) && s.leases[e].position == s.ends[p]
  }

  /** However the apps lived before, and as long as stores are refused only for lost partitions: when
      the loop of one ends because it was asked to, its close commits the end of every partition whose
      messages it was all given. */
  lemma AppCommitsWhatItDrained(s: Group, apps: set<nat>, schedule: seq<Event>, c: nat,
                                cfg: Consumer.Config, inputs: seq<Consumer.Input>, p: nat)
    requires Initial(s) && RunsApps(s, apps, schedule) && AllFaithful(s, Labels(s, schedule))
    requires c in apps && c < |GroupAfter(s, schedule).workers| && Exhausted(GroupAfter(s, schedule), c, p)
    requires 1 <= cfg.policy.maxAttempts <= s.budget && ActsOf(schedule, c) == Consumer.Loop(cfg, inputs).books.trace
    requires Consumer.Loop(cfg, inputs).Going?
    ensures var t := GroupAfter(s, schedule + [Ends(c, Closed)]);
      p < |t.committed| && p < |t.ends| && t.committed[p] == t.ends[p]
  {
    var t := GroupAfter(s, schedule);
    AppStands(s, apps, schedule, c, cfg, inputs);
    AppsAreLegal(s, apps, schedule);
    StoresAreKept(s, Labels(s, schedule));
    EndOfLife(s, schedule, c);
    hide Inv, Legal, Exec, RunsApps, GroupAfter, Labels, AllInStep, Drain.StoreUpToDate, Drain.FaithfulRun;
    hide Dropped, Settle, QueuedElsewhere;
    var e :| 0 <= e < |t.leases| && IsLeaseOn(t.leases[e], c, p) && t.leases[e].position == t.ends[p];
    CloseCommitsAllButInHand(t, c, e);
  }

  /** A life that is killed commits nothing on the way out; one that closes commits what is stored. */
  lemma EndOfLife(s: Group, schedule: seq<Event>, c: nat)
    requires c < |GroupAfter(s, schedule).workers|
    ensures var t := GroupAfter(s, schedule);
      GroupAfter(s, schedule + [Ends(c, Killed)]).committed == t.committed &&
      GroupAfter(s, schedule + [Ends(c, Closed)]) == Leaving(t, c, true)
  {
    hide GroupAfter, Dropped, Settle, QueuedElsewhere;
    OneMoreEvent(s, schedule, Ends(c, Killed));
    OneMoreEvent(s, schedule, Ends(c, Closed));
  }

  lemma OneMoreEvent(s: Group, schedule: seq<Event>, ev: Event)
    ensures var t := GroupAfter(s, schedule);
      Enabled(t, LabelOf(t, ev)) ==> GroupAfter(s, schedule + [ev]) == Next(t, LabelOf(t, ev))
  {
    hide Enabled, Next, LabelOf;
    assert (schedule + [ev])[..|schedule|] == schedule;
  }

  lemma StoresAreKept(s: Group, run: seq<Label>)
    requires Initial(s) && AllFaithful(s, run)
    ensures Drain.StoreUpToDate(Exec(s, run))
  {
    InitialInv(s);
    Drain.RunKeepsStores(s, run);
  }
}
