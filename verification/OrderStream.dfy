/**
 * Real orders on a stream.  While real orders stay in the table, each po_issued
 * of one reaches a client by its snapshot or by its queue, except when the
 * order read of the snapshot failed and the event was published before the
 * client subscribed; then it does not.
 */
module OrderStream {
  import opened Basics
  import opened OrderRows
  import opened EventBus
  import opened Projection
  import opened EventGuards
  import opened PollMachine
  import opened PollSafety
  import opened PollStreams
  import opened PollEffects
  import opened SyntheticOrderSafety
  import opened OrderConvergence
  import opened StreamNoGap
  import PollRuns

  // ---------------------------------------------------------------- orders that stay

  ghost predicate HasRequisition(t: Tables, n: Id, requisition: Id) {
    n in t.negotiations && t.negotiations[n].requisitionId == requisition
  }

  ghost predicate HasOrder(t: Tables, requisition: Id, id: Id) {
    id in t.orders && t.orders[id].requisitionId == requisition
  }

  /** Negotiations keep their requisition, and orders that are not synthetic stay with theirs. */
  ghost predicate Keeps(s: System, s': System) {
    && s.minted.Keys <= s'.minted.Keys && s.realIds <= s'.realIds
    && (forall n, r | HasRequisition(s.tables, n, r) :: HasRequisition(s'.tables, n, r))
    && (forall r, id | HasOrder(s.tables, r, id) && id !in s'.minted :: HasOrder(s'.tables, r, id))
  }

  ghost predicate EnvironmentKeeps(s: System, t: Tables) {
    && (forall n, r | HasRequisition(s.tables, n, r) :: HasRequisition(t, n, r))
    && (forall r, id | HasOrder(s.tables, r, id) && id !in s.minted :: HasOrder(t, r, id))
  }

  ghost predicate OrdersStay(s: System, steps: seq<Step>)
    requires Legal(s, steps)
    decreases |steps|
  {
    steps == [] ||
    var init, last := steps[..|steps| - 1], steps[|steps| - 1];
    OrdersStay(s, init) && (last.Environment? ==> EnvironmentKeeps(Exec(s, init), last.tables))
  }

  lemma OtherStepKeeps(s: System, step: Step)
    requires OrdersSafe(s) && Enabled(s, step) && !NamesPoll(step) && (step.Environment? ==> EnvironmentKeeps(s, step.tables))
    ensures Keeps(s, Apply(s, step))
  {
    hide CanChoose, AfterFetch, WithOrders, NextDelete, Finish, TrackingSafe, PcOrders;
    if !step.Environment? { hide EnvironmentKeeps; }
  }

  lemma StepKeeps(s: System, step: Step)
    requires OrdersSafe(s) && Enabled(s, step) && (step.Environment? ==> EnvironmentKeeps(s, step.tables))
    ensures Keeps(s, Apply(s, step))
  {
    hide Enabled, Apply, OrdersSafe, EnvironmentKeeps;
    if NamesPoll(step) {
      StepMoves(s, step);
      StepKeepsMinted(s, step);
    } else {
      OtherStepKeeps(s, step);
    }
  }

  // ---------------------------------------------------------------- published orders are in the table

  /** A row read earlier: synthetic, or still in the table with its requisition. */
  ghost predicate RowIn(s: System, r: Order) {
    r.orderId in s.minted || HasOrder(s.tables, r.requisitionId, r.orderId)
  }

  ghost predicate RowsIn(s: System, rows: seq<Order>) {
    forall r | r in rows :: RowIn(s, r)
  }

  ghost predicate OfNegotiation(s: System, n: Id, id: Id) {
    exists r :: Truthy(r) && HasRequisition(s.tables, n, r) && HasOrder(s.tables, r, id)
  }

  ghost predicate EventBacked(s: System, e: Event) {
    e.PoIssued? ==> e.order.orderId in s.minted || OfNegotiation(s, e.negotiationId, e.order.orderId)
  }

  ghost predicate LogBacked(s: System) {
    forall i | 0 <= i < |s.sh.bus.log| :: EventBacked(s, s.sh.bus.log[i])
  }

  ghost predicate PcBacked(s: System, pc: Pc) {
    && (pc.Fetching? && pc.negotiation.Some? && pc.negotiation.value.Some? ==>
          HasRequisition(s.tables, pc.n, pc.negotiation.value.value.requisitionId))
    && (Holds(pc).Some? ==>
          var l := Holds(pc).value; Truthy(RequisitionOf(l)) && HasRequisition(s.tables, l.n, RequisitionOf(l)))
    && (pc.AwaitOrders? && pc.listing.Some? ==> RowsIn(s, pc.listing.value))
    && (pc.Deleting? ==> RowsIn(s, pc.genuine) && forall r | r in pc.genuine :: r.requisitionId == RequisitionOf(pc.l))
  }

  ghost predicate Backed(s: System) {
    LogBacked(s) && forall p | p in s.pollers :: PcBacked(s, s.pollers[p])
  }

  lemma PcStaysBacked(s: System, s': System, pc: Pc)
    requires PcBacked(s, pc) && Keeps(s, s')
    ensures PcBacked(s', pc)
  {
  }

  lemma EventStaysBacked(s: System, s': System, e: Event)
    requires EventBacked(s, e) && Keeps(s, s')
    ensures EventBacked(s', e)
  {
  }

  /** The orders a resuming poll has in hand are real ones of its requisition, or synthetic. */
  lemma InHandBacked(s: System, step: Step)
    requires Enabled(s, step) && Resumes(step) && PcBacked(s, s.pollers[step.p])
    ensures var l := PublisherLocal(s, step);
      forall o | o in OrdersInHand(s, step) ::
        && RowIn(s, o) && o.requisitionId == RequisitionOf(l)
        && Truthy(RequisitionOf(l)) && HasRequisition(s.tables, l.n, RequisitionOf(l))
  {
    hide CanChoose, HasOrder, HasRequisition;
    if step.OrdersDone? { OfRequisitionMembers(s.pollers[step.p].listing.value, RequisitionOf(s.pollers[step.p].l)); }
  }

  lemma MoverBacked(s: System, step: Step)
    requires Enabled(s, step) && NamesPoll(step) && step.p in Apply(s, step).pollers && OrdersSafe(s)
    requires step.p in s.pollers ==> PcBacked(s, s.pollers[step.p])
    ensures PcBacked(s, Apply(s, step).pollers[step.p])
  {
    if Resumes(step) {
      ResumerBacked(s, step);
    } else {
      hide CanChoose, AfterFetch, WithOrders, NextDelete, Finish;
    }
  }

  lemma PublisherHasRequisition(s: System, step: Step)
    requires Enabled(s, step) && Resumes(step) && PcBacked(s, s.pollers[step.p])
    ensures var l := PublisherLocal(s, step);
      Truthy(RequisitionOf(l)) ==> HasRequisition(s.tables, l.n, RequisitionOf(l))
  {
    hide CanChoose;
  }

  lemma ResumerBacked(s: System, step: Step)
    requires Enabled(s, step) && Resumes(step) && PcBacked(s, s.pollers[step.p]) && step.p in Apply(s, step).pollers
    ensures PcBacked(s, Apply(s, step).pollers[step.p])
  {
    hide Apply, Proceed, CanChoose, OfRequisition, HasOrder, HasRequisition, Truthy, RequisitionOf;
    var pc := Apply(s, step).pollers[step.p];
    PublisherHasRequisition(s, step);
    InHandBacked(s, step);
    if Diffs(s, step) {
      MoverHolds(s, step);
    } else {
      ResumeWaits(s, step);
      if step.OrdersDone? { PartitionMembers(OrdersInHand(s, step), s.sh.syntheticOrders, false); }
    }
  }

  lemma PublishedBacked(s: System, step: Step, e: Event)
    requires Enabled(s, step) && Resumes(step) && PcBacked(s, s.pollers[step.p])
    requires FromRows(e, PublisherLocal(s, step), PublisherAwards(s, step), OrdersInHand(s, step))
    ensures EventBacked(s, e)
  {
    hide Enabled, PublisherLocal, PublisherAwards, OrdersInHand;
    InHandBacked(s, step);
  }

  /** Whatever a step publishes is backed by the tables as they are. */
  lemma StepPublishesBacked(s: System, step: Step)
    requires Enabled(s, step) && (Resumes(step) ==> PcBacked(s, s.pollers[step.p])) && LogBacked(s)
    ensures forall i | 0 <= i < |Apply(s, step).sh.bus.log| :: EventBacked(s, Apply(s, step).sh.bus.log[i])
  {
    hide Enabled, Apply, EventBacked, FromRows, PcBacked, PublisherLocal, PublisherAwards, OrdersInHand;
    if step.PutDone? {
      PutPublishesNoOrder(s, step);
    } else if Resumes(step) {
      StepAdds(s, step);
      var es :| AllFromRows(es, PublisherLocal(s, step), PublisherAwards(s, step), OrdersInHand(s, step))
                && Apply(s, step).sh.bus == PublishAll(s.sh.bus, es);
      PublishAllFrame(s.sh.bus, es);
      forall i | 0 <= i < |es| ensures EventBacked(s, es[i]) { PublishedBacked(s, step, es[i]); }
    } else {
      OtherStepsAreQuiet(s, step);
    }
  }

  lemma PutPublishesNoOrder(s: System, step: Step)
    requires Enabled(s, step) && step.PutDone? && LogBacked(s)
    ensures forall i | 0 <= i < |Apply(s, step).sh.bus.log| :: EventBacked(s, Apply(s, step).sh.bus.log[i])
  {
    hide Finish, OfNegotiation;
    FinishEffects(s.sh, s.pollers[step.p].l, s.pollers[step.p].snapshot, []);
    assert FreshOrders(s.sh, s.pollers[step.p].l, []) == [];
  }

  lemma StepBacked(s: System, step: Step)
    requires OrdersSafe(s) && Backed(s) && Enabled(s, step) && (step.Environment? ==> EnvironmentKeeps(s, step.tables))
    ensures Backed(Apply(s, step))
  {
    hide Apply, CanChoose, OrdersSafe, EventBacked, PcBacked, Keeps, EnvironmentKeeps;
    var s' := Apply(s, step);
    StepKeeps(s, step);
    StepPublishesBacked(s, step);
    forall i | 0 <= i < |s'.sh.bus.log| ensures EventBacked(s', s'.sh.bus.log[i]) { EventStaysBacked(s, s', s'.sh.bus.log[i]); }
    if NamesPoll(step) { StepMoves(s, step); } else { OtherPollersStay(s, step); }
    forall p | p in s'.pollers ensures PcBacked(s', s'.pollers[p]) {
      if NamesPoll(step) && step.p == p { MoverBacked(s, step); }
      PcStaysBacked(s, s', s'.pollers[p]);
    }
  }

  lemma {:induction false} RunBacked(s: System, steps: seq<Step>)
    requires OrdersSafe(s) && Backed(s) && Legal(s, steps) && OrdersStay(s, steps)
    ensures Backed(Exec(s, steps)) && OrdersSafe(Exec(s, steps)) && Keeps(s, Exec(s, steps))
  {
    hide Apply, Enabled, OrdersSafe, Backed, EnvironmentKeeps;
    if steps == [] {
      KeepsItself(s);
    } else {
      var init, last := steps[..|steps| - 1], steps[|steps| - 1];
      RunBacked(s, init);
      StepBacked(Exec(s, init), last);
      StepOrdersSafe(Exec(s, init), last);
      StepKeeps(Exec(s, init), last);
      KeepsTrans(s, Exec(s, init), Exec(s, steps));
    }
  }

  lemma KeepsItself(s: System)
    ensures Keeps(s, s)
  {
  }

  lemma KeepsTrans(a: System, b: System, c: System)
    requires Keeps(a, b) && Keeps(b, c)
    ensures Keeps(a, c)
  {
  }

  // ---------------------------------------------------------------- what a later poll shows

  /** A real order of the negotiation, in the table at `s`. */
  ghost predicate Target(s: System, n: Id, id: Id) {
    id in s.realIds && OfNegotiation(s, n, id)
  }

  ghost predicate Lists(rows: seq<Order>, id: Id) {
    exists r | r in rows :: r.orderId == id
  }

  ghost predicate ListsOf(rows: seq<Order>, requisition: Id, id: Id) {
    exists r | r in rows :: r.orderId == id && r.requisitionId == requisition
  }

  /** The rows the poll has or will have hold each order that was there to be seen; `lost` if its order read failed. */
  ghost predicate PcShows(s0: System, n: Id, pc: Pc, lost: bool) {
    if lost then Settled(pc, []) else
      && (pc.Fetching? ==>
            && pc.n == n
            && (forall r | HasRequisition(s0.tables, n, r) && pc.negotiation.Some? ::
                  pc.negotiation.value.Some? && pc.negotiation.value.value.requisitionId == r))
      && (Holds(pc).Some? ==>
            Holds(pc).value.n == n && forall r | HasRequisition(s0.tables, n, r) :: RequisitionOf(Holds(pc).value) == r)
      && (pc.AwaitOrders? && pc.listing.Some? ==>
            forall id | Target(s0, n, id) :: ListsOf(pc.listing.value, RequisitionOf(pc.l), id))
      && (pc.Deleting? ==> forall id | Target(s0, n, id) :: Lists(pc.genuine, id))
      && (pc.AwaitPut? ==> forall id | Target(s0, n, id) :: Lists(pc.snapshot.orders, id))
      && (pc.Done? && pc.result.Some? ==> forall id | Target(s0, n, id) :: Lists(pc.result.value.orders, id))
  }

  lemma SettledShows(s0: System, n: Id, pc: Pc, orders: seq<Order>)
    requires Settled(pc, orders) && (Holds(pc).Some? ==>
               Holds(pc).value.n == n && forall r | HasRequisition(s0.tables, n, r) :: RequisitionOf(Holds(pc).value) == r)
    requires forall id | Target(s0, n, id) :: Lists(orders, id)
    ensures PcShows(s0, n, pc, false)
  {
    hide Target, Lists;
  }

  /** A scan of the current table lists every order that was there when the client subscribed. */
  lemma ScanShows(s0: System, s: System, n: Id, pc: Pc, rows: seq<Order>)
    requires Keeps(s0, s) && OrdersSafe(s) && IsScan(rows, s.tables.orders) && pc.AwaitOrders?
    requires PcShows(s0, n, pc, false)
    ensures forall id | Target(s0, n, id) :: ListsOf(rows, RequisitionOf(pc.l), id)
  {
    forall id | Target(s0, n, id) ensures ListsOf(rows, RequisitionOf(pc.l), id) {
      var r :| Truthy(r) && HasRequisition(s0.tables, n, r) && HasOrder(s0.tables, r, id);
      assert id !in s.minted;
      assert HasOrder(s.tables, r, id);
      assert s.tables.orders[id] in rows;
    }
  }

  /** Real orders listed are shown, whatever is tracked. */
  lemma ListedAreShown(s0: System, s: System, n: Id, rows: seq<Order>, requisition: Id)
    requires Keeps(s0, s) && OrdersSafe(s)
    requires forall id | Target(s0, n, id) :: ListsOf(rows, requisition, id)
    ensures forall id | Target(s0, n, id) :: Lists(Shown(s.sh, OfRequisition(rows, requisition)), id)
  {
    var mine := OfRequisition(rows, requisition);
    OfRequisitionMembers(rows, requisition);
    hide OfRequisition, Shown;
    ShownMembers(s.sh, mine);
    forall id | Target(s0, n, id) ensures Lists(Shown(s.sh, mine), id) {
      var r :| r in rows && r.orderId == id && r.requisitionId == requisition;
      assert r in mine && id !in s.sh.syntheticOrders;
    }
  }

  lemma LeavesReadShows(s0: System, s: System, step: Step, n: Id)
    requires Keeps(s0, s) && OrdersSafe(s) && Enabled(s, step) && step.OrdersDone?
    requires PcShows(s0, n, s.pollers[step.p], false) && step.p in Apply(s, step).pollers
    ensures PcShows(s0, n, Apply(s, step).pollers[step.p], false)
  {
    hide Apply, CanChoose, Shown, OfRequisition, Target, Lists, OrdersSafe, Keeps, HasRequisition;
    var pc := s.pollers[step.p];
    ResumeSettles(s, step);
    ListedAreShown(s0, s, n, pc.listing.value, RequisitionOf(pc.l));
    MoverHolds(s, step);
    SettledShows(s0, n, Apply(s, step).pollers[step.p], Shown(s.sh, OrdersInHand(s, step)));
  }

  lemma FetchShows(s0: System, s: System, step: Step, n: Id)
    requires Enabled(s, step) && step.FetchDone? && PcShows(s0, n, s.pollers[step.p], false) && step.p in Apply(s, step).pollers
    ensures PcShows(s0, n, Apply(s, step).pollers[step.p], false)
  {
    hide Apply, Proceed, CanChoose;
    var pc, l := s.pollers[step.p], PublisherLocal(s, step);
    assert l.n == n && forall r | HasRequisition(s0.tables, n, r) :: RequisitionOf(l) == r;
    if Diffs(s, step) {
      ResumeDiffs(s, step);
      ProceedSettles(s, step.p, l, PublisherAwards(s, step), [], step.visit, step.id);
      MoverHolds(s, step);
      NoTargets(s0, n, l);
      SettledShows(s0, n, Apply(s, step).pollers[step.p], []);
    } else {
      ResumeWaits(s, step);
    }
  }

  /** A negotiation without a requisition has no orders of its own. */
  lemma NoTargets(s0: System, n: Id, l: Local)
    requires !Truthy(RequisitionOf(l)) && forall r | HasRequisition(s0.tables, n, r) :: RequisitionOf(l) == r
    ensures forall id :: !Target(s0, n, id)
  {
  }

  /** Once settled, a poll keeps its orders. */
  lemma SettledStaysShown(s0: System, s: System, step: Step, n: Id, orders: seq<Order>)
    requires Enabled(s, step) && (step.DeleteDone? || step.PutDone?)
    requires PcShows(s0, n, s.pollers[step.p], false) && Settled(s.pollers[step.p], orders)
    requires step.p in Apply(s, step).pollers
    ensures PcShows(s0, n, Apply(s, step).pollers[step.p], false)
  {
    hide Apply, Target, Lists, HasRequisition;
    MoverStaysSettled(s, step, orders);
    assert forall id | Target(s0, n, id) :: Lists(orders, id);
    if step.DeleteDone? {
      MoverHolds(s, step);
    } else {
      PutIsDone(s, step);
    }
    SettledShows(s0, n, Apply(s, step).pollers[step.p], orders);
  }

  lemma PutIsDone(s: System, step: Step)
    requires Enabled(s, step) && step.PutDone?
    ensures step.p in Apply(s, step).pollers && Apply(s, step).pollers[step.p].Done?
  {
    hide Finish;
  }

  ghost predicate FailsRead(step: Step, p: nat) {
    step.OrdersFailed? && step.p == p
  }

  lemma MoverShows(s0: System, s: System, step: Step, n: Id, lost: bool)
    requires Keeps(s0, s) && OrdersSafe(s) && Enabled(s, step) && NamesPoll(step)
    requires step.p in s.pollers && PcShows(s0, n, s.pollers[step.p], lost) && step.p in Apply(s, step).pollers
    ensures PcShows(s0, n, Apply(s, step).pollers[step.p], lost || FailsRead(step, step.p))
  {
    var pc := s.pollers[step.p];
    if lost {
      hide Apply, Target, CanChoose;
      MoverStaysSettled(s, step, []);
    } else if step.OrdersFailed? {
      hide Apply, Target, CanChoose;
      ResumeSettles(s, step);
      NothingShown(s.sh);
    } else if step.OrdersDone? {
      hide Apply, Target, CanChoose;
      LeavesReadShows(s0, s, step, n);
    } else if step.FetchDone? {
      hide Apply, Target, CanChoose;
      FetchShows(s0, s, step, n);
    } else if step.DeleteDone? {
      hide Apply, Target, CanChoose;
      SettledStaysShown(s0, s, step, n, pc.genuine);
    } else if step.PutDone? {
      hide Apply, Target, CanChoose;
      SettledStaysShown(s0, s, step, n, pc.snapshot.orders);
    } else {
      QuietMoverShows(s0, s, step, n);
    }
  }

  lemma QuietMoverShows(s0: System, s: System, step: Step, n: Id)
    requires Keeps(s0, s) && OrdersSafe(s) && Enabled(s, step) && NamesPoll(step) && !Resumes(step) && !step.PutDone?
    requires step.p in s.pollers && PcShows(s0, n, s.pollers[step.p], false) && step.p in Apply(s, step).pollers
    ensures PcShows(s0, n, Apply(s, step).pollers[step.p], false)
  {
    hide CanChoose, AfterFetch, WithOrders, NextDelete, Finish, Target, ListsOf, Lists, OrdersSafe;
    if step.Scan? { ScanShows(s0, s, n, s.pollers[step.p], step.listed); }
  }

  /** A poll that has not started, or has started on `n` after the subscription. */
  ghost predicate ShowsIfStarted(s0: System, s: System, p: nat, n: Id, lost: bool) {
    if p in s.pollers then OnNegotiation(s.pollers[p], n) ==> PcShows(s0, n, s.pollers[p], lost) else !lost
  }

  /** The poll is one of `n`; a poll that is done says so by its snapshot. */
  ghost predicate OnNegotiation(pc: Pc, n: Id) {
    match pc
    case Fetching(m, _, _, _, _) => m == n
    case AwaitAwards(l, _) => l.n == n
    case AwaitOrders(l, _, _) => l.n == n
    case Deleting(l, _, _, _) => l.n == n
    case AwaitPut(_, snap, _) => snap.negotiationId == n
    case Done(result) => result.Some? && result.value.negotiationId == n
  }

  lemma MoverKeepsNegotiation(s: System, step: Step, n: Id)
    requires Enabled(s, step) && NamesPoll(step) && step.p in Apply(s, step).pollers
    requires OnNegotiation(Apply(s, step).pollers[step.p], n)
    ensures if step.p in s.pollers then OnNegotiation(s.pollers[step.p], n) else step == Start(step.p, n)
  {
    if Resumes(step) {
      hide Apply, Enabled, Proceed, Diffs, PublisherAwards, OrdersInHand, BuildSnapshot;
      ResumerNegotiation(s, step, n);
    } else {
      hide CanChoose, AfterFetch, WithOrders, NextDelete, Finish;
    }
  }

  lemma PublisherNegotiation(s: System, step: Step, n: Id)
    requires Enabled(s, step) && Resumes(step)
    ensures step.p in s.pollers && (OnNegotiation(s.pollers[step.p], n) <==> PublisherLocal(s, step).n == n)
  {
    hide CanChoose;
  }

  lemma ResumerNegotiation(s: System, step: Step, n: Id)
    requires Enabled(s, step) && Resumes(step) && step.p in Apply(s, step).pollers
    requires OnNegotiation(Apply(s, step).pollers[step.p], n)
    ensures step.p in s.pollers && OnNegotiation(s.pollers[step.p], n)
  {
    hide Apply, Enabled, Proceed, Diffs, PublisherLocal, PublisherAwards, OrdersInHand, BuildSnapshot;
    var l, awards, orders := PublisherLocal(s, step), PublisherAwards(s, step), OrdersInHand(s, step);
    PublisherNegotiation(s, step, n);
    SnapshotParts(l, awards, orders);
    if Diffs(s, step) {
      ResumeDiffs(s, step);
      ProceedEffects(s.(sh := Noted(s, step)), step.p, l, awards, orders, step.visit, step.id);
    } else {
      ResumeWaits(s, step);
    }
  }

  lemma StartShows(s0: System, s: System, p: nat, n: Id)
    requires p !in s.pollers
    ensures Enabled(s, Start(p, n)) && p in Apply(s, Start(p, n)).pollers
    ensures PcShows(s0, n, Apply(s, Start(p, n)).pollers[p], false)
  {
    hide CanChoose, AfterFetch, WithOrders, NextDelete, Finish;
  }

  lemma StepShows(s0: System, s: System, step: Step, p: nat, n: Id, lost: bool)
    requires Keeps(s0, s) && OrdersSafe(s) && Enabled(s, step) && ShowsIfStarted(s0, s, p, n, lost)
    ensures ShowsIfStarted(s0, Apply(s, step), p, n, lost || FailsRead(step, p))
  {
    var s' := Apply(s, step);
    FailsWhenStarted(s, step, p);
    hide Apply, Enabled, OrdersSafe, Keeps, PcShows, OnNegotiation;
    if NamesPoll(step) { StepMoves(s, step); } else { OtherPollersStay(s, step); }
    if NamesPoll(step) && step.p == p {
      if OnNegotiation(s'.pollers[p], n) {
        MoverKeepsNegotiation(s, step, n);
        if p in s.pollers { MoverShows(s0, s, step, n, lost); } else { StartShows(s0, s, p, n); }
      }
    }
  }

  lemma FailsWhenStarted(s: System, step: Step, p: nat)
    requires Enabled(s, step)
    ensures FailsRead(step, p) ==> p in s.pollers
  {
  }

  ghost predicate ReadFails(steps: seq<Step>, p: nat) {
    exists i | 0 <= i < |steps| :: FailsRead(steps[i], p)
  }

  lemma ReadFailsOneMore(steps: seq<Step>, step: Step, p: nat)
    ensures ReadFails(steps + [step], p) <==> ReadFails(steps, p) || FailsRead(step, p)
  {
    var all := steps + [step];
    assert all[|steps|] == step && forall i | 0 <= i < |steps| :: all[i] == steps[i];
    if ReadFails(steps, p) {
      var i :| 0 <= i < |steps| && FailsRead(steps[i], p);
      assert FailsRead(all[i], p);
    }
    if FailsRead(step, p) { assert FailsRead(all[|steps|], p); }
  }

  lemma {:induction false} RunShows(s0: System, steps: seq<Step>, p: nat, n: Id)
    requires OrdersSafe(s0) && Backed(s0) && Legal(s0, steps) && OrdersStay(s0, steps) && p !in s0.pollers
    ensures ShowsIfStarted(s0, Exec(s0, steps), p, n, ReadFails(steps, p))
  {
    hide Apply, Enabled, OrdersSafe, Backed, Keeps, EnvironmentKeeps, ShowsIfStarted, ReadFails;
    if steps == [] {
      NotStarted(s0, p, n);
    } else {
      var init, last := steps[..|steps| - 1], steps[|steps| - 1];
      RunShows(s0, init, p, n);
      RunBacked(s0, init);
      StepShows(s0, Exec(s0, init), last, p, n, ReadFails(init, p));
      ReadFailsOneMore(init, last, p);
      assert steps == init + [last];
    }
  }

  lemma NotStarted(s: System, p: nat, n: Id)
    requires p !in s.pollers
    ensures ShowsIfStarted(s, s, p, n, ReadFails([], p))
  {
  }

  // ---------------------------------------------------------------- main result

  lemma StartBacked()
    ensures OrdersSafe(START) && Backed(START)
  {
  }

  lemma ListenKeepsOrders(s: System, n: Id, q: nat)
    requires Enabled(s, Listen(n, q))
    ensures var s' := Apply(s, Listen(n, q));
      && s'.sh.bus.log == s.sh.bus.log && s'.tables == s.tables && s'.pollers == s.pollers
      && s'.minted == s.minted && s'.realIds == s.realIds
  {
    hide AfterFetch, WithOrders, NextDelete, Finish, CanChoose;
  }

  /** A client of `n` listens on `q`; a poll `p` of `n`, started later, has returned its snapshot. */
  ghost predicate Subscribes(before: seq<Step>, n: Id, q: nat, rest: seq<Step>, p: nat, snap: Snapshot) {
    && Legal(START, before) && OrdersStay(START, before)
    && Enabled(Exec(START, before), Listen(n, q)) && Truthy(n) && p !in Exec(START, before).pollers
    && Legal(Listening(before, n, q), rest) && OrdersStay(Listening(before, n, q), rest) && NeverLeaves(rest, q)
    && var s' := Exec(Listening(before, n, q), rest);
       p in s'.pollers && s'.pollers[p] == Done(Some(snap)) && snap.negotiationId == n
  }

  ghost function Listening(before: seq<Step>, n: Id, q: nat): System
    requires Legal(START, before) && Enabled(Exec(START, before), Listen(n, q))
  {
    Apply(Exec(START, before), Listen(n, q))
  }

  /**
   * In any interleaving in which real orders stay in the table: a po_issued of
   * a real order fails to reach the client, by snapshot and by queue, if and
   * only if the snapshot's order read failed and the event was published before
   * the client subscribed.
   */
  lemma RealOrderMissedExactly(before: seq<Step>, n: Id, q: nat, rest: seq<Step>, p: nat, snap: Snapshot, i: nat)
    requires Subscribes(before, n, q, rest, p, snap)
    requires var s' := Exec(Listening(before, n, q), rest);
             && i < |s'.sh.bus.log| && s'.sh.bus.log[i].PoIssued? && s'.sh.bus.log[i].negotiationId == n
             && s'.sh.bus.log[i].order.orderId !in s'.minted
    ensures var s', e := Exec(Listening(before, n, q), rest), Exec(Listening(before, n, q), rest).sh.bus.log[i];
      && q in s'.sh.bus.queues
      && (!Lists(snap.orders, e.order.orderId) && e !in s'.sh.bus.queues[q]
          <==> ReadFails(rest, p) && i < |Exec(START, before).sh.bus.log|)
  {
    hide Apply, Enabled, Exec, Legal, OrdersStay, OrdersSafe, Backed, Keeps, PcShows, Target;
    var s := Exec(START, before);
    var s1 := Listening(before, n, q);
    var s' := Exec(s1, rest);
    StartBacked();
    RunBacked(START, before);
    ListenKeepsOrders(s, n, q);
    ListenBacked(s, n, q);
    StepOrdersSafe(s, Listen(n, q));
    RunBacked(s1, rest);
    RunShows(s1, rest, p, n);
    QueueIsViewOfLog(before, n, q, rest);
    ReachesEnd(before, n, q, rest);
    EventsAtMostOnce(s');
    var e := s'.sh.bus.log[i];
    Exactly(s1, s', n, q, p, snap, i, ReadFails(rest, p));
  }

  lemma ListenBacked(s: System, n: Id, q: nat)
    requires Backed(s) && Enabled(s, Listen(n, q))
    ensures Backed(Apply(s, Listen(n, q)))
  {
    hide Apply, Enabled, EventBacked, PcBacked;
    ListenKeepsOrders(s, n, q);
    var s' := Apply(s, Listen(n, q));
    forall i | 0 <= i < |s'.sh.bus.log| ensures EventBacked(s', s'.sh.bus.log[i]) { SameBacked(s, s', s.sh.bus.log[i]); }
    forall p | p in s'.pollers ensures PcBacked(s', s'.pollers[p]) { SamePcBacked(s, s', s.pollers[p]); }
  }

  lemma SameBacked(s: System, s': System, e: Event)
    requires EventBacked(s, e) && s'.tables == s.tables && s'.minted == s.minted
    ensures EventBacked(s', e)
  {
    hide HasOrder, HasRequisition;
    if e.PoIssued? && e.order.orderId !in s.minted {
      var r :| Truthy(r) && HasRequisition(s.tables, e.negotiationId, r) && HasOrder(s.tables, r, e.order.orderId);
      assert HasRequisition(s'.tables, e.negotiationId, r) && HasOrder(s'.tables, r, e.order.orderId);
    }
  }

  lemma SamePcBacked(s: System, s': System, pc: Pc)
    requires PcBacked(s, pc) && s'.tables == s.tables && s'.minted == s.minted
    ensures PcBacked(s', pc)
  {
  }

  lemma ReachesEnd(before: seq<Step>, n: Id, q: nat, rest: seq<Step>)
    requires Legal(START, before) && Enabled(Exec(START, before), Listen(n, q)) && Legal(Listening(before, n, q), rest)
    ensures Reachable(Exec(Listening(before, n, q), rest))
  {
    hide Apply, Enabled;
    assert Reachable(Exec(START, before));
    PollRuns.Then(Exec(START, before), Listen(n, q));
    PollRuns.RunIsReachable(Listening(before, n, q), rest);
  }

  lemma Exactly(s1: System, s': System, n: Id, q: nat, p: nat, snap: Snapshot, i: nat, lost: bool)
    requires Backed(s1) && OrdersSafe(s1) && Keeps(s1, s') && AtMostOnce(s'.sh.bus.log) && s1.sh.bus.log <= s'.sh.bus.log
    requires q in s'.sh.bus.queues && s'.sh.bus.queues[q] == For(s'.sh.bus.log[|s1.sh.bus.log|..], n)
    requires p in s'.pollers && s'.pollers[p] == Done(Some(snap)) && snap.negotiationId == n && ShowsIfStarted(s1, s', p, n, lost)
    requires i < |s'.sh.bus.log| && s'.sh.bus.log[i].PoIssued? && s'.sh.bus.log[i].negotiationId == n
    requires s'.sh.bus.log[i].order.orderId !in s'.minted
    ensures var e := s'.sh.bus.log[i];
      !Lists(snap.orders, e.order.orderId) && e !in s'.sh.bus.queues[q] <==> lost && i < |s1.sh.bus.log|
  {
    var log, from := s'.sh.bus.log, |s1.sh.bus.log|;
    if i < from {
      NotOnQueue(s'.sh.bus, from, n, i);
      assert EventBacked(s1, s1.sh.bus.log[i]);
      BackedIsTarget(s1, s1.sh.bus.log[i]);
    } else {
      ForMember(log[from..], n, i - from);
    }
  }

  /** An order in the table that is not synthetic is a real one. */
  lemma BackedIsTarget(s: System, e: Event)
    requires OrdersSafe(s) && EventBacked(s, e) && e.PoIssued? && e.order.orderId !in s.minted
    ensures Target(s, e.negotiationId, e.order.orderId)
  {
  }
}
