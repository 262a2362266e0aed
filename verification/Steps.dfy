/** What each step of the group does, and what it leaves alone: the guards and effects of `Delivery`
    spelled out lease by lease and worker by worker, and what follows of them over runs. */
module Steps {
  import opened Control
  import opened Delivery
  import opened Replay

  // ---- what can happen ----

  predicate Owns(s: Group, c: nat, e: nat) {
    c < |s.workers| && e < |s.leases| && s.leases[e].live && s.leases[e].owner == c
  }

  /** poll hands out a message exactly to an idle consumer that owns the partition, while there is one. */
  lemma PollsExactly(s: Group, c: nat, e: nat)
    requires Inv(s)
    ensures Enabled(s, Poll(c, e)) <==>
      Owns(s, c, e) && s.workers[c].phase.Idle? &&
      s.leases[e].partition < |s.ends| && s.leases[e].position < s.ends[s.leases[e].partition]
  {
    assert e < |s.leases| ==> LeaseOk(s, e);
  }

  /** What a consumer may do with the message in hand: try again while the budget lasts, settle it
      either way, and once it is settled store it, successfully only while the partition is its own. */
  lemma ActsExactly(s: Group, c: nat, act: Act)
    requires Inv(s) && c < |s.workers|
    ensures var phase := s.workers[c].phase;
      Enabled(s, Do(c, act)) <==>
      match act
      case Polled(_, _) => false
      case Retried => phase.Trying? && phase.attempt + 1 <= s.budget
      case Accepted => phase.Trying?
      case DeadLettered(_) => phase.Trying?
      case Stored(accepted) => phase.Settled? && (accepted ==> Owns(s, c, s.workers[c].lease))
  {
    assert WorkerOk(s, c);
  }

  /** A partition is handed to an idle consumer exactly when nobody owns it. */
  lemma AssignsExactly(s: Group, p: nat, c: nat)
    requires Inv(s)
    ensures Enabled(s, Assign(p, c)) <==>
      p < |s.ends| && c < |s.workers| && s.workers[c].phase.Idle? && !Owned(s, p)
  {
  }

  /** Only the stored offset of a current owner can be committed; the process of any consumer can end at
      any time, any assignment be revoked, and only a queued letter be acknowledged or rejected. */
  lemma DisruptsExactly(s: Group, e: nat, c: nat, p: nat, h: nat)
    requires Inv(s)
    ensures Enabled(s, Commit(e)) <==> e < |s.leases| && s.leases[e].live
    ensures Enabled(s, Revoke(e)) <==> e < |s.leases|
    ensures Enabled(s, Crash(c)) <==> c < |s.workers|
    ensures Enabled(s, Close(c)) <==> c < |s.workers|
    ensures Enabled(s, Append(p)) <==> p < |s.ends|
    ensures Enabled(s, Ack(h)) <==> h in s.pending
    ensures Enabled(s, Reject(h)) <==> h in s.pending
  {
    assert e < |s.leases| ==> LeaseOk(s, e);
  }

  // ---- what it does ----

  predicate SameLog(s: Group, t: Group) {
    t.budget == s.budget && t.origin == s.origin && t.ends == s.ends
  }

  predicate SameLetters(s: Group, t: Group) {
    t.history == s.history && t.acked == s.acked && t.pending == s.pending
  }

  predicate SameLeasesBut(s: Group, t: Group, e: nat) {
    |t.leases| == |s.leases| && forall d :: 0 <= d < |s.leases| && d != e ==> t.leases[d] == s.leases[d]
  }

  predicate SameWorkersBut(s: Group, t: Group, c: nat) {
    |t.workers| == |s.workers| && forall k :: 0 <= k < |s.workers| && k != c ==> t.workers[k] == s.workers[k]
  }

  /** A poll puts the next offset of the partition in hand, for its first attempt. */
  lemma PollHandsOut(s: Group, c: nat, e: nat)
    requires Enabled(s, Poll(c, e))
    ensures var t, l := Next(s, Poll(c, e)), s.leases[e];
      t.workers == s.workers[c := Worker(Trying(l.partition, l.position, 1), e)] &&
      SameLeasesBut(s, t, e) &&
      t.leases[e] == Lease(l.partition, l.owner, l.start, l.position + 1, l.done, l.stored, l.live) &&
      SameLog(s, t) && SameLetters(s, t) && t.committed == s.committed
  {
  }

  lemma RetryCounts(s: Group, c: nat)
    requires Enabled(s, Do(c, Retried))
    ensures var t, w := Next(s, Do(c, Retried)), s.workers[c];
      t.workers == s.workers[c := Worker(Trying(w.phase.partition, w.phase.offset, w.phase.attempt + 1), w.lease)] &&
      t.leases == s.leases && SameLog(s, t) && SameLetters(s, t) && t.committed == s.committed
  {
  }

  /** A terminal state goes on record, moves the assignment on by that offset, and, for a letter, leaves
      it acknowledged, queued or neither, as its report says. */
  lemma SettlingRecords(s: Group, c: nat, act: Act)
    requires Inv(s) && Enabled(s, Do(c, act)) && Terminal(act)
    ensures var t, w := Next(s, Do(c, act)), s.workers[c];
      var n, l := |s.history|, s.leases[w.lease];
      t.workers == s.workers[c := Worker(Settled(w.phase.partition, w.phase.offset), w.lease)] &&
      SameLeasesBut(s, t, w.lease) &&
      t.leases[w.lease] == Lease(l.partition, l.owner, l.start, l.position, w.phase.offset + 1, l.stored, l.live) &&
      t.history == s.history + [Handling(w.lease, w.phase.partition, w.phase.offset, act.Accepted?)] &&
      (forall h :: h in t.acked <==> h in s.acked || (h == n && act.DeadLettered? && act.flush.report.Delivered?)) &&
      (forall h :: h in t.pending <==> h in s.pending || (h == n && act.DeadLettered? && act.flush.report.Queued?)) &&
      SameLog(s, t) && t.committed == s.committed
  {
    assert WorkerOk(s, c);
  }

  /** A store makes the settled offset the stored one; a refused one changes nothing but lets the loop
      go on. */
  lemma StoreAdvances(s: Group, c: nat, accepted: bool)
    requires Inv(s) && Enabled(s, Do(c, Stored(accepted)))
    ensures var t, w := Next(s, Do(c, Stored(accepted))), s.workers[c];
      var l := s.leases[w.lease];
      t.workers == s.workers[c := Worker(Idle, w.lease)] && SameLeasesBut(s, t, w.lease) &&
      t.leases[w.lease] == Lease(l.partition, l.owner, l.start, l.position, l.done,
                                 if accepted then w.phase.offset + 1 else l.stored, l.live) &&
      SameLog(s, t) && SameLetters(s, t) && t.committed == s.committed
  {
    assert WorkerOk(s, c);
  }

  lemma CommitPublishes(s: Group, e: nat)
    requires Inv(s) && Enabled(s, Commit(e))
    ensures var t, p := Next(s, Commit(e)), s.leases[e].partition;
      |t.committed| == |s.committed| && t.committed[p] == s.leases[e].stored &&
      (forall q :: 0 <= q < |s.committed| && q != p ==> t.committed[q] == s.committed[q]) &&
      t.leases == s.leases && t.workers == s.workers && SameLog(s, t) && SameLetters(s, t)
  {
    assert LeaseOk(s, e);
  }

  /** A new owner starts at the committed offset, with nothing handled or stored. */
  lemma AssignStarts(s: Group, p: nat, c: nat)
    requires Enabled(s, Assign(p, c))
    ensures var t, at := Next(s, Assign(p, c)), s.committed[p];
      t.leases == s.leases + [Lease(p, c, at, at, at, at, true)] && Owned(t, p) &&
      t.workers == s.workers && t.committed == s.committed && SameLog(s, t) && SameLetters(s, t)
  {
    assert Next(s, Assign(p, c)).leases[|s.leases|].live;
  }

  /** A revoked partition is nobody's: its stores are refused, what was stored is no longer committed,
      not even by a close, and any idle consumer can be its next owner. */
  lemma RevokeReleases(s: Group, e: nat)
    requires Inv(s) && e < |s.leases| && s.leases[e].live
    ensures var t, l := Next(s, Revoke(e)), s.leases[e];
      SameLeasesBut(s, t, e) &&
      t.leases[e] == Lease(l.partition, l.owner, l.start, l.position, l.done, l.stored, false) &&
      t.workers == s.workers && t.committed == s.committed && SameLog(s, t) && SameLetters(s, t) &&
      !Owned(t, l.partition) && !Enabled(t, Commit(e)) && l.partition < |s.committed| &&
      (forall c :: 0 <= c < |t.workers| && t.workers[c].lease == e ==> !Enabled(t, Do(c, Stored(true)))) &&
      (forall c :: 0 <= c < |t.workers| ==> Leaving(t, c, true).committed[l.partition] == s.committed[l.partition]) &&
      (forall c :: 0 <= c < |t.workers| && t.workers[c].phase.Idle? ==> Enabled(t, Assign(l.partition, c)))
  {
    var t, p := Next(s, Revoke(e)), s.leases[e].partition;
    assert LeaseOk(s, e);
    assert OneOwner(t.leases);
    assert !Owned(t, p);
    hide Inv, Settle, Dropped;
    forall c | 0 <= c < |t.workers| ensures Leaving(t, c, true).committed[p] == s.committed[p] {
      SettleAt(t.leases, c, t.committed, p);
    }
  }

  lemma RevokeTwice(s: Group, e: nat)
    requires e < |s.leases| && !s.leases[e].live
    ensures Next(s, Revoke(e)) == s
  {
    assert s.leases[e := s.leases[e]] == s.leases;
  }

  /** A killed process loses its assignments and its queued letters, and commits nothing. */
  lemma CrashForgets(s: Group, c: nat)
    requires Inv(s) && Enabled(s, Crash(c))
    ensures var t := Next(s, Crash(c)); LeavesBehind(s, t, c) && t.committed == s.committed
  {
    LeavingLeavesBehind(s, c, false);
  }

  /** A graceful close commits what is stored of each partition it still owns, and otherwise ends the
      process just like a kill. */
  lemma CloseCommitsStored(s: Group, c: nat)
    requires Inv(s) && Enabled(s, Close(c))
    ensures var t := Next(s, Close(c));
      LeavesBehind(s, t, c) && |t.committed| == |s.committed| &&
      forall p :: 0 <= p < |s.committed| ==>
        (forall e :: 0 <= e < |s.leases| && s.leases[e].live && s.leases[e].owner == c && s.leases[e].partition == p ==>
          t.committed[p] == s.leases[e].stored) &&
        ((forall e :: 0 <= e < |s.leases| && s.leases[e].live && s.leases[e].owner == c ==> s.leases[e].partition != p) ==>
          t.committed[p] == s.committed[p])
  {
    LeavingLeavesBehind(s, c, true);
    hide Settle, Dropped;
    forall p | 0 <= p < |s.committed|
      ensures forall e :: 0 <= e < |s.leases| && s.leases[e].live && s.leases[e].owner == c && s.leases[e].partition == p ==>
          Next(s, Close(c)).committed[p] == s.leases[e].stored
      ensures (forall e :: 0 <= e < |s.leases| && s.leases[e].live && s.leases[e].owner == c ==> s.leases[e].partition != p) ==>
          Next(s, Close(c)).committed[p] == s.committed[p]
    {
      SettleAt(s.leases, c, s.committed, p);
    }
  }

  /** The group without the process of `c`. */
  ghost predicate LeavesBehind(s: Group, t: Group, c: nat) {
    |t.leases| == |s.leases| && c < |s.workers| &&
    (forall e :: 0 <= e < |s.leases| ==>
      var l := s.leases[e];
      t.leases[e] == Lease(l.partition, l.owner, l.start, l.position, l.done, l.stored, l.live && l.owner != c)) &&
    SameWorkersBut(s, t, c) && t.workers[c].phase.Idle? && SameLog(s, t) &&
    t.history == s.history && t.acked == s.acked &&
    forall h :: h in t.pending <==> h in s.pending && !ProducedBy(s, h, c)
  }

  /** The letter was handed over by the process of `c`. */
  predicate ProducedBy(s: Group, h: nat, c: nat) {
    h < |s.history| && s.history[h].lease < |s.leases| && s.leases[s.history[h].lease].owner == c
  }

  lemma LeavingLeavesBehind(s: Group, c: nat, commit: bool)
    requires c < |s.workers|
    ensures LeavesBehind(s, Leaving(s, c, commit), c)
  {
    hide Settle;
  }

  lemma AppendGrows(s: Group, p: nat)
    requires Enabled(s, Append(p))
    ensures var t := Next(s, Append(p));
      |t.ends| == |s.ends| && t.ends[p] == s.ends[p] + 1 &&
      (forall q :: 0 <= q < |s.ends| && q != p ==> t.ends[q] == s.ends[q]) &&
      t.budget == s.budget && t.origin == s.origin && t.committed == s.committed &&
      t.leases == s.leases && t.workers == s.workers && SameLetters(s, t)
  {
  }

  /** A queued letter reaches the dead letter topic, or is given up. */
  lemma ReportsArrive(s: Group, h: nat, delivered: bool)
    requires Inv(s) && LettersOk(s) && h in s.pending
    ensures var l := if delivered then Ack(h) else Reject(h);
      Enabled(s, l) && var t := Next(s, l);
      (forall g :: g in t.acked <==> g in s.acked || (g == h && delivered)) &&
      (forall g :: g in t.pending <==> g in s.pending && g != h) &&
      (delivered ==> Durable(t, s.history[h].partition, s.history[h].offset)) &&
      t.history == s.history && t.leases == s.leases && t.workers == s.workers && t.committed == s.committed && SameLog(s, t)
  {
    assert LetterAt(s, h);
    assert Concerns(s.history[h], s.history[h].partition, s.history[h].offset);
  }

  // ---- over runs ----

  /** An assignment that is over is over for good: never live again, and nothing more is stored in it. */
  lemma {:induction false} OverForGood(s: Group, run: seq<Label>, e: nat)
    requires Inv(s) && Legal(s, run) && e < |s.leases| && !s.leases[e].live
    ensures var t := Exec(s, run);
      e < |t.leases| && !t.leases[e].live && t.leases[e].stored == s.leases[e].stored
    decreases |run|
  {
    if run != [] {
      hide Inv, Legal, Exec;
      StaysOver(s, run[0], e);
      LegalParts(s, run);
      StepKeepsInv(s, run[0]);
      OverForGood(Next(s, run[0]), run[1..], e);
    }
  }

  lemma LegalParts(s: Group, run: seq<Label>)
    requires Legal(s, run) && run != []
    ensures Enabled(s, run[0]) && Legal(Next(s, run[0]), run[1..])
    ensures Exec(s, run) == Exec(Next(s, run[0]), run[1..])
  {
  }

  lemma StaysOver(s: Group, l: Label, e: nat)
    requires Inv(s) && Enabled(s, l) && e < |s.leases| && !s.leases[e].live
    ensures var t := Next(s, l);
      e < |t.leases| && !t.leases[e].live && t.leases[e].stored == s.leases[e].stored
  {
    hide Inv, Settle;
  }

  /** Whoever owns a revoked partition next replays it: in every continuation an offset not committed at
      the revocation is committed only after a later assignment has handled it. */
  lemma RevokedIsReplayed(s: Group, e: nat, run: seq<Label>, o: nat)
    requires Inv(s) && e < |s.leases| && s.leases[e].live && Legal(Next(s, Revoke(e)), run)
    requires s.leases[e].partition < |s.committed| && s.committed[s.leases[e].partition] <= o
    ensures var t, p := Exec(Next(s, Revoke(e)), run), s.leases[e].partition;
      p < |t.committed| &&
      (o < t.committed[p] ==>
        exists i :: 0 <= i < |t.history| && |s.leases| <= t.history[i].lease && Concerns(t.history[i], p, o))
  {
    hide Inv, Legal, Exec, Owned, Settle, Concerns;
    RevokeReleases(s, e);
    StepKeepsInv(s, Revoke(e));
    UncommittedIsReplayed(Next(s, Revoke(e)), run, s.leases[e].partition, o);
  }
}
