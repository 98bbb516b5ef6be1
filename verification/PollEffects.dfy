/**
 * What each step does to the parts of the shared state that whole-run results
 * are about: the log, the saved snapshots and the statuses processed.  A
 * resuming poll either goes on waiting or makes its diff; nothing else saves,
 * apart from the tail after a put.
 */
module PollEffects {
  import opened Basics
  import opened OrderRows
  import opened Projection
  import opened EventGuards
  import opened PollMachine
  import opened PollStreams

  predicate Resumes(step: Step) {
    step.FetchDone? || step.OrdersDone? || step.OrdersFailed? || step.DeleteDone?
  }

  /** The step is one in which a poll compares with its previous snapshot. */
  ghost predicate Diffs(s: System, step: Step)
    requires Enabled(s, step)
  {
    match step
    case FetchDone(p, names, _, _) =>
      var pc := s.pollers[p];
      (pc.negotiation.value.Some? || pc.n in s.sh.state) && !Truthy(RequisitionOf(LocalOf(s.sh, pc, names)))
    case OrdersDone(_, _, _) =>
      RealOrders(s.sh, OrdersInHand(s, step)) == [] || SyntheticOrders(s.sh, OrdersInHand(s, step)) == []
    case OrdersFailed(_, _, _) => true
    case DeleteDone(p, _, _, _) => |s.pollers[p].pending| == 1
    case _ => false
  }

  /** The shared state once a successful delete has been taken note of. */
  ghost function Noted(s: System, step: Step): Shared
    requires Enabled(s, step)
  {
    if step.DeleteDone? && step.ok then Discard(s.sh, s.pollers[step.p].pending[0].orderId) else s.sh
  }

  lemma ResumeDiffs(s: System, step: Step)
    requires Enabled(s, step) && Diffs(s, step)
    ensures Apply(s, step)
         == Proceed(s.(sh := Noted(s, step)), step.p, PublisherLocal(s, step), PublisherAwards(s, step),
                    OrdersInHand(s, step), step.visit, step.id)
  {
    hide Proceed;
    if step.OrdersFailed? {
      assert OfRequisition([], RequisitionOf(s.pollers[step.p].l)) == [];
      assert RealOrders(s.sh, []) == [];
    }
  }

  /** Where a resuming poll stands that has made no diff yet. */
  ghost predicate WaitsAt(s: System, step: Step, pc: Pc)
    requires Enabled(s, step) && Resumes(step)
  {
    match pc
    case AwaitAwards(l, rows) => step.FetchDone? && l == PublisherLocal(s, step) && rows.None? && Truthy(RequisitionOf(l))
    case Deleting(l, awards, genuine, pending) =>
      && !step.FetchDone? && l == PublisherLocal(s, step) && awards == PublisherAwards(s, step)
      && genuine == (if step.DeleteDone? then s.pollers[step.p].genuine else RealOrders(s.sh, OrdersInHand(s, step)))
      && pending == if step.DeleteDone? then s.pollers[step.p].pending[1..] else SyntheticOrders(s.sh, OrdersInHand(s, step))
    case Done(result) => step.FetchDone? && result.None?
    case _ => false
  }

  ghost predicate Waits(s: System, step: Step, s': System)
    requires Enabled(s, step) && Resumes(step)
  {
    && s'.sh == Noted(s, step) && s'.tables == s.tables && s'.minted == s.minted && s'.puts == s.puts
    && step.p in s'.pollers && s'.pollers == s.pollers[step.p := s'.pollers[step.p]]
    && WaitsAt(s, step, s'.pollers[step.p])
    && (s'.pollers[step.p].Deleting? ==>
          var pending := s'.pollers[step.p].pending;
          pending != [] && s'.deletes == s.deletes + {pending[0].orderId})
  }

  lemma FetchWaits(s: System, step: Step)
    requires Enabled(s, step) && step.FetchDone? && !Diffs(s, step)
    ensures Waits(s, step, Apply(s, step))
  {
    hide Proceed, CanChoose;
  }

  lemma OrdersWait(s: System, step: Step)
    requires Enabled(s, step) && step.OrdersDone? && !Diffs(s, step)
    ensures Waits(s, step, Apply(s, step))
  {
    hide Proceed, CanChoose, OfRequisition, Partition;
  }

  lemma DeleteWaits(s: System, step: Step)
    requires Enabled(s, step) && step.DeleteDone? && !Diffs(s, step)
    ensures Waits(s, step, Apply(s, step))
  {
    hide Proceed, CanChoose;
  }

  lemma ResumeWaits(s: System, step: Step)
    requires Enabled(s, step) && Resumes(step) && !Diffs(s, step)
    ensures Waits(s, step, Apply(s, step))
  {
    hide Apply, Waits;
    if step.FetchDone? {
      FetchWaits(s, step);
    } else if step.OrdersDone? {
      OrdersWait(s, step);
    } else {
      DeleteWaits(s, step);
    }
  }

  lemma ProceedEffects(s: System, p: nat, l: Local, awards: seq<Award>, orders: seq<Order>, visit: seq<Id>, id: Id)
    ensures var s', snap := Proceed(s, p, l, awards, orders, visit, id), BuildSnapshot(l, awards, orders);
      && s'.sh.state == s.sh.state[l.n := snap]
      && s'.pollers == s.pollers[p := s'.pollers[p]]
      && s'.tables == s.tables
      && (var sh1, log1 := Diff(s.sh, l, awards, orders, visit), s.sh.bus.log + DiffEvents(s.sh, l, awards, visit);
          match s'.pollers[p]
          case AwaitPut(l1, snap1, _) =>
            && l1 == l && snap1 == snap && orders == []
            && s'.sh.bus.log == log1 && s'.sh.processed == s.sh.processed && s'.sh.published == sh1.published
          case Done(result) =>
            && result == Some(snap)
            && s'.sh.bus.log == log1 + (PoEvents(l.n, FreshOrders(sh1, l, orders)) + StatusEvents(s.sh, l))
            && s'.sh.processed == s.sh.processed + Processed(l)
            && LastStatus(s'.sh.published, l.n) == NextStatus(s.sh, l)
          case _ => false)
  {
    hide Diff, Finish, BuildSnapshot, DiffEvents, DiffPublished;
    var sh1, snap := Diff(s.sh, l, awards, orders, visit), BuildSnapshot(l, awards, orders);
    DiffEffects(s.sh, l, awards, orders, visit);
    DiffSaves(s.sh, l, awards, orders, visit);
    DiffKeepsStatuses(s.sh, l, awards, visit);
    FinishEffects(sh1, l, snap, orders);
    SnapshotParts(l, awards, orders);
  }

  ghost function Processed(l: Local): seq<(Id, string)> {
    if Truthy(CurrentStatus(l)) then [(l.n, CurrentStatus(l))] else []
  }

  ghost function NextStatus(sh: Shared, l: Local): Option<string> {
    if Truthy(CurrentStatus(l)) then Some(CurrentStatus(l)) else LastStatus(sh.published, l.n)
  }

  lemma DiffKeepsStatuses(sh: Shared, l: Local, awards: seq<Award>, visit: seq<Id>)
    ensures DiffPublished(sh, l, awards, visit).statuses == sh.published.statuses
  {
  }

  lemma SnapshotParts(l: Local, awards: seq<Award>, orders: seq<Order>)
    ensures var snap := BuildSnapshot(l, awards, orders);
      && snap.negotiationId == l.n && snap.orders == orders && snap.awards == awards
      && snap.invitations == l.fetched.invitations + Derived(l)
      && snap.(orderIds := TruthyIds(orders, OrderKey)) == snap
  {
  }

  /** Steps that are no resumption of a poll leave log, snapshots and statuses alone. */
  lemma OtherStepsAreQuiet(s: System, step: Step)
    requires Enabled(s, step) && !Resumes(step) && !step.PutDone?
    ensures var s' := Apply(s, step);
      && s'.sh.bus.log == s.sh.bus.log && s'.sh.state == s.sh.state && s'.sh.processed == s.sh.processed
      && s'.sh.published == s.sh.published
      && s'.sh.syntheticOrders == s.sh.syntheticOrders
  {
  }

  /** The previous snapshot a poll still has to compare with. */
  ghost function Holds(pc: Pc): Option<Local> {
    match pc
    case AwaitAwards(l, _) => Some(l)
    case AwaitOrders(l, _, _) => Some(l)
    case Deleting(l, _, _, _) => Some(l)
    case _ => None
  }

  /** A resuming poll goes on with its own rows, or has made a snapshot of them. */
  lemma MoverHolds(s: System, step: Step)
    requires Enabled(s, step) && Resumes(step)
    ensures step.p in Apply(s, step).pollers
    ensures var pc, l := Apply(s, step).pollers[step.p], PublisherLocal(s, step);
      && !pc.Fetching?
      && (Holds(pc).Some? ==> Holds(pc).value == l && !Diffs(s, step))
      && (pc.AwaitPut? ==> Diffs(s, step) && pc.l == l && pc.snapshot.negotiationId == l.n
                           && pc.snapshot.invitations == l.fetched.invitations + Derived(l))
  {
    hide Enabled, Apply, Proceed, Diffs, Derived, PublisherLocal, PublisherAwards, OrdersInHand;
    var l := PublisherLocal(s, step);
    if Diffs(s, step) {
      ResumeDiffs(s, step);
      ProceedEffects(s.(sh := Noted(s, step)), step.p, l, PublisherAwards(s, step), OrdersInHand(s, step), step.visit, step.id);
      SnapshotParts(l, PublisherAwards(s, step), OrdersInHand(s, step));
    } else {
      ResumeWaits(s, step);
    }
  }

  // ---------------------------------------------------------------- polls that do not overlap

  ghost predicate Working(pc: Pc, n: Id) {
    match pc
    case Fetching(m, _, _, _, _) => m == n
    case AwaitAwards(l, _) => l.n == n
    case AwaitOrders(l, _, _) => l.n == n
    case Deleting(l, _, _, _) => l.n == n
    case AwaitPut(l, _, _) => l.n == n
    case Done(_) => false
  }

  ghost predicate Idle(s: System, n: Id) {
    forall p | p in s.pollers :: !Working(s.pollers[p], n)
  }

  /** A poll of `n` starts only when every earlier poll of `n` is done; other negotiations are free. */
  ghost predicate OneAtATime(s: System, steps: seq<Step>, n: Id)
    requires Legal(s, steps)
    decreases |steps|
  {
    steps == [] ||
    var init, last := steps[..|steps| - 1], steps[|steps| - 1];
    OneAtATime(s, init, n) && (last.Start? && last.n == n ==> Idle(Exec(s, init), n))
  }

  ghost predicate AtMostOneWorks(s: System, n: Id) {
    forall p, q | p in s.pollers && q in s.pollers && Working(s.pollers[p], n) && Working(s.pollers[q], n) :: p == q
  }

  lemma StepKeepsWork(s: System, step: Step, n: Id, p: nat)
    requires Enabled(s, step) && p in Apply(s, step).pollers && Working(Apply(s, step).pollers[p], n)
    ensures (p in s.pollers && Working(s.pollers[p], n)) || (step.Start? && step.n == n && step.p == p)
  {
    hide Proceed, Apply;
    if NamesPoll(step) {
      StepMoves(s, step);
      if step.p == p { MoverKeepsWork(s, step, n); }
    } else {
      OtherPollersStay(s, step);
    }
  }

  lemma OtherPollersStay(s: System, step: Step)
    requires Enabled(s, step) && !NamesPoll(step)
    ensures Apply(s, step).pollers == s.pollers
  {
  }

  lemma MoverKeepsWork(s: System, step: Step, n: Id)
    requires Enabled(s, step) && NamesPoll(step) && step.p in Apply(s, step).pollers && Working(Apply(s, step).pollers[step.p], n)
    ensures (step.p in s.pollers && Working(s.pollers[step.p], n)) || (step.Start? && step.n == n)
  {
    hide Proceed;
    if Resumes(step) {
      hide Apply;
      var l := PublisherLocal(s, step);
      if Diffs(s, step) {
        ResumeDiffs(s, step);
        ProceedEffects(s.(sh := Noted(s, step)), step.p, l, PublisherAwards(s, step), OrdersInHand(s, step), step.visit, step.id);
      } else {
        ResumeWaits(s, step);
      }
    }
  }

  lemma StepKeepsAtMostOne(s: System, step: Step, n: Id)
    requires Enabled(s, step) && AtMostOneWorks(s, n) && (step.Start? && step.n == n ==> Idle(s, n))
    ensures AtMostOneWorks(Apply(s, step), n)
  {
    hide Apply, Working;
    var s' := Apply(s, step);
    forall p, q | p in s'.pollers && q in s'.pollers && Working(s'.pollers[p], n) && Working(s'.pollers[q], n)
      ensures p == q
    {
      StepKeepsWork(s, step, n, p);
      StepKeepsWork(s, step, n, q);
    }
  }
}
