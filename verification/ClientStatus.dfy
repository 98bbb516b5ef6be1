/**
 * The status a stream client ends up with: the last status change on its
 * queue, or else the status of its snapshot, is the last one published,
 * whatever other polls do.
 */
module ClientStatus {
  import opened Basics
  import opened OrderRows
  import opened EventBus
  import opened Projection
  import opened EventGuards
  import opened StatusChain
  import opened PollMachine
  import opened PollStreams
  import opened PollEffects

  /** The last status announced in a log. */
  ghost function LastAnnounced(log: seq<Event>, n: Id): Option<string> {
    var es := Changes(log, n);
    if es == [] || !es[|es| - 1].StatusChange? then None else Some(es[|es| - 1].status)
  }

  /** At some moment since position `from`, `status` was the last one announced. */
  ghost predicate WasLast(log: seq<Event>, n: Id, from: nat, status: string) {
    exists k | from <= k <= |log| :: LastAnnounced(log[..k], n) == Some(status)
  }

  /** What a poll's finished snapshot, or the one it is about to finish, has to do with the log. */
  ghost predicate PcAnnounced(s: System, pc: Pc, n: Id, from: nat) {
    && (pc.AwaitPut? ==> pc.snapshot.negotiationId == pc.l.n && pc.snapshot.status == CurrentStatus(pc.l))
    && (pc.Done? && pc.result.Some? && pc.result.value.negotiationId == n && Truthy(pc.result.value.status) ==>
          WasLast(s.sh.bus.log, n, from, pc.result.value.status))
  }

  lemma WasLastLonger(a: seq<Event>, b: seq<Event>, n: Id, from: nat, status: string)
    requires WasLast(a, n, from, status) && a <= b
    ensures WasLast(b, n, from, status)
  {
    var k :| from <= k <= |a| && LastAnnounced(a[..k], n) == Some(status);
    assert b[..k] == a[..k];
  }

  lemma IsLastNow(s: System, n: Id, from: nat, status: string)
    requires StatusesMatch(s.sh, n) && LastStatus(s.sh.published, n) == Some(status) && from <= |s.sh.bus.log|
    ensures WasLast(s.sh.bus.log, n, from, status)
  {
    var log := s.sh.bus.log;
    assert log[..|log|] == log;
    assert LastAnnounced(log[..|log|], n) == Some(status);
  }

  lemma SnapshotStatus(l: Local, awards: seq<Award>, orders: seq<Order>)
    ensures BuildSnapshot(l, awards, orders).status == CurrentStatus(l) && BuildSnapshot(l, awards, orders).negotiationId == l.n
  {
  }

  /** A poll that finishes in this step has just announced the status it shows, or found it announced. */
  lemma ProceedAnnounces(s: System, p: nat, l: Local, awards: seq<Award>, orders: seq<Order>, visit: seq<Id>, id: Id, n: Id, from: nat)
    requires StatusesMatch(Proceed(s, p, l, awards, orders, visit, id).sh, n) && from <= |s.sh.bus.log|
    requires s.sh.bus.log <= Proceed(s, p, l, awards, orders, visit, id).sh.bus.log
    ensures var s' := Proceed(s, p, l, awards, orders, visit, id); PcAnnounced(s', s'.pollers[p], n, from)
  {
    hide Proceed, BuildSnapshot, DiffEvents, StatusesMatch, WasLast;
    var s' := Proceed(s, p, l, awards, orders, visit, id);
    ProceedEffects(s, p, l, awards, orders, visit, id);
    SnapshotStatus(l, awards, orders);
    if l.n == n && Truthy(CurrentStatus(l)) && s'.pollers[p].Done? { IsLastNow(s', n, from, CurrentStatus(l)); }
  }

  lemma PutAnnounces(s: System, step: Step, n: Id, from: nat)
    requires Enabled(s, step) && step.PutDone? && PcAnnounced(s, s.pollers[step.p], n, from)
    requires StatusesMatch(Apply(s, step).sh, n) && from <= |Apply(s, step).sh.bus.log|
    ensures PcAnnounced(Apply(s, step), Apply(s, step).pollers[step.p], n, from)
  {
    hide Finish, StatusesMatch, WasLast;
    var pc, s' := s.pollers[step.p], Apply(s, step);
    FinishEffects(s.sh, pc.l, pc.snapshot, []);
    if pc.l.n == n && Truthy(CurrentStatus(pc.l)) { IsLastNow(s', n, from, CurrentStatus(pc.l)); }
  }

  lemma ResumerAnnounced(s: System, step: Step, n: Id, from: nat)
    requires Enabled(s, step) && Resumes(step) && step.p in Apply(s, step).pollers
    requires StatusesMatch(Apply(s, step).sh, n) && from <= |s.sh.bus.log| && s.sh.bus.log <= Apply(s, step).sh.bus.log
    ensures PcAnnounced(Apply(s, step), Apply(s, step).pollers[step.p], n, from)
  {
    hide Enabled, Apply, Proceed, Diffs, PublisherLocal, PublisherAwards, OrdersInHand, StatusesMatch, WasLast;
    if Diffs(s, step) {
      ResumeDiffs(s, step);
      ProceedAnnounces(s.(sh := Noted(s, step)), step.p, PublisherLocal(s, step), PublisherAwards(s, step), OrdersInHand(s, step),
                       step.visit, step.id, n, from);
    } else {
      ResumeWaits(s, step);
    }
  }

  lemma MoverAnnounced(s: System, step: Step, n: Id, from: nat)
    requires Enabled(s, step) && NamesPoll(step) && step.p in Apply(s, step).pollers
    requires step.p in s.pollers ==> PcAnnounced(s, s.pollers[step.p], n, from)
    requires StatusesMatch(Apply(s, step).sh, n) && from <= |s.sh.bus.log| && s.sh.bus.log <= Apply(s, step).sh.bus.log
    ensures PcAnnounced(Apply(s, step), Apply(s, step).pollers[step.p], n, from)
  {
    hide Apply, PcAnnounced, StatusesMatch, CanChoose;
    if step.PutDone? {
      PutAnnounces(s, step, n, from);
    } else if Resumes(step) {
      ResumerAnnounced(s, step, n, from);
    } else {
      OtherMoverAnnounced(s, step, n, from);
    }
  }

  lemma OtherMoverAnnounced(s: System, step: Step, n: Id, from: nat)
    requires Enabled(s, step) && NamesPoll(step) && !Resumes(step) && !step.PutDone? && step.p in Apply(s, step).pollers
    requires step.p in s.pollers ==> PcAnnounced(s, s.pollers[step.p], n, from)
    ensures PcAnnounced(Apply(s, step), Apply(s, step).pollers[step.p], n, from)
  {
    hide CanChoose, WasLast, AfterFetch, WithOrders, NextDelete, Finish;
    OtherStepsAreQuiet(s, step);
  }

  lemma StepAnnounced(s: System, step: Step, p: nat, n: Id, from: nat)
    requires Enabled(s, step) && StatusesMatch(Apply(s, step).sh, n) && BusValid(s.sh.bus) && from <= |s.sh.bus.log|
    requires p in s.pollers ==> PcAnnounced(s, s.pollers[p], n, from)
    ensures p in Apply(s, step).pollers ==> PcAnnounced(Apply(s, step), Apply(s, step).pollers[p], n, from)
    ensures s.sh.bus.log <= Apply(s, step).sh.bus.log
  {
    hide Enabled, Apply, StatusesMatch, WasLast;
    var s' := Apply(s, step);
    StepBus(s, step);
    if NamesPoll(step) { StepMoves(s, step); } else { OtherPollersStay(s, step); }
    if p in s'.pollers {
      if NamesPoll(step) && step.p == p {
        MoverAnnounced(s, step, n, from);
      } else if s.pollers[p].Done? && s.pollers[p].result.Some? && s.pollers[p].result.value.negotiationId == n
                && Truthy(s.pollers[p].result.value.status) {
        WasLastLonger(s.sh.bus.log, s'.sh.bus.log, n, from, s.pollers[p].result.value.status);
      }
    }
  }

  lemma {:induction false} RunAnnounced(s: System, steps: seq<Step>, p: nat, n: Id)
    requires BusValid(s.sh.bus) && StatusesMatch(s.sh, n) && Legal(s, steps) && p !in s.pollers
    ensures var s' := Exec(s, steps);
      && s.sh.bus.log <= s'.sh.bus.log && BusValid(s'.sh.bus) && StatusesMatch(s'.sh, n)
      && (p in s'.pollers ==> PcAnnounced(s', s'.pollers[p], n, |s.sh.bus.log|))
  {
    hide Enabled, Apply, StatusesMatch, PcAnnounced, BusValid;
    if steps != [] {
      var init, last := steps[..|steps| - 1], steps[|steps| - 1];
      RunAnnounced(s, init, p, n);
      RunKeepsChain(s, steps, n);
      StepBus(Exec(s, init), last);
      StepAnnounced(Exec(s, init), last, p, n, |s.sh.bus.log|);
    }
  }

  // ---------------------------------------------------------------- what the client has

  lemma {:induction false} ChangesOnQueue(es: seq<Event>, n: Id)
    requires Truthy(n)
    ensures Changes(For(es, n), n) == Changes(es, n)
  {
    if es != [] {
      var init, e := es[..|es| - 1], es[|es| - 1];
      ChangesOnQueue(init, n);
      if e.negotiationId == n {
        assert For(es, n) == For(init, n) + [e];
        assert For(es, n)[..|For(es, n)| - 1] == For(init, n);
      }
    }
  }

  /** The status a client shows: the last change it received, or else its snapshot's. */
  ghost function StatusShown(queue: seq<Event>, snap: Snapshot, n: Id): string {
    match LastAnnounced(queue, n)
    case Some(status) => status
    case None => snap.status
  }

  lemma LastOfParts(log: seq<Event>, from: nat, n: Id)
    requires from <= |log|
    ensures Changes(log, n) == Changes(log[..from], n) + Changes(log[from..], n)
  {
    assert log == log[..from] + log[from..];
    ChangesAppend(log[..from], log[from..], n);
  }

  lemma {:induction false} ChangesAreChanges(log: seq<Event>, n: Id)
    ensures forall i | 0 <= i < |Changes(log, n)| :: Changes(log, n)[i].StatusChange?
  {
    if log != [] { ChangesAreChanges(log[..|log| - 1], n); }
  }

  /** Without a change since `from`, what was last at any moment since is still last. */
  lemma StillLast(log: seq<Event>, n: Id, from: nat, status: string)
    requires from <= |log| && Changes(log[from..], n) == [] && WasLast(log, n, from, status)
    ensures LastAnnounced(log, n) == Some(status)
  {
    var k :| from <= k <= |log| && LastAnnounced(log[..k], n) == Some(status);
    LastOfParts(log, k, n);
    LastOfParts(log[from..], k - from, n);
    assert log[from..][k - from..] == log[k..];
    assert Changes(log, n) == Changes(log[..k], n);
  }

  lemma NewestIsLast(log: seq<Event>, n: Id, from: nat)
    requires from <= |log| && LastAnnounced(log[from..], n).Some?
    ensures LastAnnounced(log, n) == LastAnnounced(log[from..], n)
  {
    LastOfParts(log, from, n);
  }

  lemma NoneAnnounced(log: seq<Event>, n: Id)
    requires LastAnnounced(log, n).None?
    ensures Changes(log, n) == []
  {
    ChangesAreChanges(log, n);
  }

  /** Listening starts with an empty queue, and changes neither log nor statuses nor polls. */
  lemma ListenEffect(s: System, n: Id, q: nat)
    requires Enabled(s, Listen(n, q))
    ensures var s' := Apply(s, Listen(n, q));
      && s'.sh.bus.log == s.sh.bus.log && s'.pollers == s.pollers
      && s'.sh.processed == s.sh.processed && s'.sh.published == s.sh.published
  {
    hide AfterFetch, WithOrders, NextDelete, Finish, CanChoose;
  }

  /**
   * A client subscribes, a poll that starts later returns its snapshot, and
   * anything else runs: a status the client then shows is the last published.
   */
  lemma ClientStatusIsLastPublished(before: seq<Step>, n: Id, q: nat, rest: seq<Step>, p: nat, snap: Snapshot)
    requires Legal(START, before) && Enabled(Exec(START, before), Listen(n, q)) && Truthy(n)
    requires Legal(Apply(Exec(START, before), Listen(n, q)), rest) && NeverLeaves(rest, q)
    requires p !in Exec(START, before).pollers
    requires var s' := Exec(Apply(Exec(START, before), Listen(n, q)), rest);
             p in s'.pollers && s'.pollers[p] == Done(Some(snap)) && snap.negotiationId == n
    ensures var s' := Exec(Apply(Exec(START, before), Listen(n, q)), rest);
      && q in s'.sh.bus.queues
      && (Truthy(StatusShown(s'.sh.bus.queues[q], snap, n)) ==>
            LastStatus(s'.sh.published, n) == Some(StatusShown(s'.sh.bus.queues[q], snap, n)))
  {
    hide Apply, Enabled, Exec, Legal, StatusesMatch, BusValid, WasLast;
    var s := Exec(START, before);
    var s1 := Apply(s, Listen(n, q));
    var s' := Exec(s1, rest);
    StartMatches(n);
    RunBus(START, before);
    RunKeepsChain(START, before, n);
    ListenEffect(s, n, q);
    StepBus(s, Listen(n, q));
    StepKeepsChain(s, Listen(n, q), n);
    RunAnnounced(s1, rest, p, n);
    QueueIsViewOfLog(before, n, q, rest);
    Concludes(s', n, |s.sh.bus.log|, p, snap, s'.sh.bus.queues[q]);
  }

  lemma StartMatches(n: Id)
    ensures BusValid(START.sh.bus) && StatusesMatch(START.sh, n)
  {
  }

  lemma Concludes(s: System, n: Id, from: nat, p: nat, snap: Snapshot, queue: seq<Event>)
    requires StatusesMatch(s.sh, n) && from <= |s.sh.bus.log| && Truthy(n) && queue == For(s.sh.bus.log[from..], n)
    requires PcAnnounced(s, Done(Some(snap)), n, from) && snap.negotiationId == n
    ensures Truthy(StatusShown(queue, snap, n)) ==> LastStatus(s.sh.published, n) == Some(StatusShown(queue, snap, n))
  {
    hide Changes, For, WasLast;
    var log := s.sh.bus.log;
    ChangesOnQueue(log[from..], n);
    assert LastAnnounced(queue, n) == LastAnnounced(log[from..], n);
    if LastAnnounced(queue, n).Some? {
      NewestIsLast(log, n, from);
    } else if Truthy(snap.status) {
      NoneAnnounced(log[from..], n);
      StillLast(log, n, from, snap.status);
    }
  }
}
