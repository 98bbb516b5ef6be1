/**
 * Synthetic purchase orders, over every interleaving: at most one per
 * negotiation, minted only for an approved award with no order on view, never
 * untracked while it exists, and deleted without ever touching a real order.
 */
module SyntheticOrderSafety {
  import opened Basics
  import opened OrderRows
  import opened Projection
  import opened PollMachine

  // ---------------------------------------------------------------- splitting the order list

  lemma {:induction false} PartitionMembers(rows: seq<Order>, ids: set<Id>, member: bool)
    ensures forall r :: r in Partition(rows, ids, member) <==> r in rows && ((r.orderId in ids) == member)
  {
    if rows != [] {
      PartitionMembers(rows[..|rows| - 1], ids, member);
      assert rows == rows[..|rows| - 1] + [rows[|rows| - 1]];
    }
  }

  lemma {:induction false} OfRequisitionMembers(rows: seq<Order>, requisitionId: Id)
    ensures forall r :: r in OfRequisition(rows, requisitionId) <==> r in rows && r.requisitionId == requisitionId
  {
    if rows != [] {
      OfRequisitionMembers(rows[..|rows| - 1], requisitionId);
      assert rows == rows[..|rows| - 1] + [rows[|rows| - 1]];
    }
  }

  lemma SplitMembers(sh: Shared, listing: seq<Order>, requisitionId: Id)
    ensures var mine := OfRequisition(listing, requisitionId);
      && (forall r :: r in mine <==> r in listing && r.requisitionId == requisitionId)
      && (forall r :: r in RealOrders(sh, mine) <==> r in mine && r.orderId !in sh.syntheticOrders)
      && (forall r :: r in SyntheticOrders(sh, mine) <==> r in mine && r.orderId in sh.syntheticOrders)
  {
    var mine := OfRequisition(listing, requisitionId);
    OfRequisitionMembers(listing, requisitionId);
    PartitionMembers(mine, sh.syntheticOrders, false);
    PartitionMembers(mine, sh.syntheticOrders, true);
  }

  /**
   * Round trip into a later poll: the row put for a synthetic order reads back
   * under this tenant, passes the filter of its requisition, and falls on the
   * synthetic side of the split for as long as its id is tracked.
   */
  lemma MintedOrderIsRecognised(sh: Shared, l: Local, awards: seq<Award>, id: Id, listing: seq<Order>)
    requires l.fetched.negotiation.Some? && awards != []
    requires SyntheticOrder(id, l, awards) in listing && id in sh.syntheticOrders
    ensures var o, mine := SyntheticOrder(id, l, awards), OfRequisition(listing, RequisitionOf(l));
      && o.orderId == id && o.tenantId == TENANT_ID && o.awardId == awards[0].awardId
      && o.supplierId == awards[0].supplierId && o.supplierName == WinnerName(awards[0], l.fetched.names)
      && o.totalValue == awards[0].totalAmount && o.savingsAmount == awards[0].savingsAmount
      && o in SyntheticOrders(sh, mine) && o !in RealOrders(sh, mine)
  {
    SyntheticRowRoundTrip(id, RequisitionOf(l), TENANT_ID, awards[0], WinnerName(awards[0], l.fetched.names));
    SplitMembers(sh, listing, RequisitionOf(l));
  }

  // ---------------------------------------------------------------- the invariant

  /** Rows a poll has read: real ones, or minted ones whose put had landed. */
  ghost predicate Known(s: System, id: Id) {
    id in s.realIds || (id in s.minted && id !in s.puts)
  }

  ghost predicate PcOrders(s: System, pc: Pc) {
    match pc
    case AwaitOrders(_, _, listing) => listing.Some? ==> forall r | r in listing.value :: Known(s, r.orderId)
    case Deleting(_, _, genuine, pending) => genuine != [] && forall r | r in pending :: r.orderId in s.minted && r.orderId !in s.puts
    case _ => true
  }

  ghost predicate MintedOnce(minted: map<Id, Id>) {
    forall a, b | a in minted && b in minted && minted[a] == minted[b] :: a == b
  }

  ghost predicate OrderTablesSafe(s: System) {
    && s.minted.Keys !! s.realIds
    && (forall id | id in s.tables.orders :: s.tables.orders[id].orderId == id && (id in s.minted || id in s.realIds))
    && (forall id | id in s.puts :: id in s.minted && id !in s.tables.orders && s.puts[id].orderId == id)
    && s.deletes <= s.minted.Keys
  }

  ghost predicate TrackingSafe(s: System) {
    && s.sh.syntheticOrders <= s.minted.Keys
    && (forall id | id in s.minted :: s.minted[id] in s.sh.syntheticNegotiations)
    && MintedOnce(s.minted)
    && (forall id | id in s.minted && (id in s.tables.orders || id in s.puts) :: id in s.sh.syntheticOrders)
  }

  ghost predicate OrdersSafe(s: System) {
    OrderTablesSafe(s) && TrackingSafe(s) && forall p | p in s.pollers :: PcOrders(s, s.pollers[p])
  }

  // ---------------------------------------------------------------- resuming polls

  /** What a resuming poll may change: its own place, and one freshly minted order. */
  ghost predicate OrderStep(s: System, s': System, id: Id) {
    && s'.sh.syntheticOrders >= s.sh.syntheticOrders && s'.sh.syntheticNegotiations >= s.sh.syntheticNegotiations
    && ( || (s'.minted == s.minted && s'.puts == s.puts && s'.sh.syntheticOrders == s.sh.syntheticOrders)
         || (exists n: Id, order: Order |
               && n !in s.sh.syntheticNegotiations && order.orderId == id
               :: && s'.minted == s.minted[id := n] && s'.puts == s.puts[id := order]
                  && s'.sh.syntheticOrders == s.sh.syntheticOrders + {id}
                  && n in s'.sh.syntheticNegotiations))
  }

  lemma DiffKeepsTracking(sh: Shared, l: Local, awards: seq<Award>, orders: seq<Order>, visit: seq<Id>)
    ensures var d := Diff(sh, l, awards, orders, visit);
      d.syntheticOrders == sh.syntheticOrders && d.syntheticNegotiations == sh.syntheticNegotiations
  {
  }

  lemma FinishKeepsTracking(sh: Shared, l: Local, snap: Snapshot, orders: seq<Order>)
    ensures var f := Finish(sh, l, snap, orders);
      f.syntheticOrders == sh.syntheticOrders && f.syntheticNegotiations == sh.syntheticNegotiations
  {
  }

  lemma ProceedOrders(s: System, p: nat, l: Local, awards: seq<Award>, orders: seq<Order>, visit: seq<Id>, id: Id)
    requires Truthy(id)
    ensures OrderStep(s, Proceed(s, p, l, awards, orders, visit, id), id)
    ensures Proceed(s, p, l, awards, orders, visit, id).deletes == s.deletes
  {
    hide Diff, Finish;
    var sh1 := Diff(s.sh, l, awards, orders, visit);
    DiffKeepsTracking(s.sh, l, awards, orders, visit);
    FinishKeepsTracking(sh1, l, BuildSnapshot(l, awards, orders), orders);
    if WantsSyntheticOrder(sh1, l, awards, orders) {
      assert SyntheticOrder(id, l, awards).orderId == id;
    }
  }

  lemma OrderStepSafe(s: System, s': System, p: nat, id: Id)
    requires OrdersSafe(s) && FreshId(s, id) && MovesOnly(s, s', p) && OrderStep(s, s', id)
    requires s'.deletes <= s'.minted.Keys && PcOrders(s', s'.pollers[p])
    ensures OrdersSafe(s')
  {
    forall q | q in s'.pollers ensures PcOrders(s', s'.pollers[q]) {
      if q != p { assert PcOrders(s, s.pollers[q]); }
    }
  }

  lemma ProceedOrdersSafe(s: System, p: nat, l: Local, awards: seq<Award>, orders: seq<Order>, visit: seq<Id>, id: Id)
    requires OrdersSafe(s) && FreshId(s, id)
    ensures OrdersSafe(Proceed(s, p, l, awards, orders, visit, id))
  {
    hide Proceed;
    var s' := Proceed(s, p, l, awards, orders, visit, id);
    ProceedOrders(s, p, l, awards, orders, visit, id);
    ProceedMoves(s, p, l, awards, orders, visit, id);
    OrderStepSafe(s, s', p, id);
  }

  lemma NextDeleteOrdersSafe(s: System, p: nat, l: Local, awards: seq<Award>, genuine: seq<Order>, pending: seq<Order>,
                             visit: seq<Id>, id: Id)
    requires OrdersSafe(s) && FreshId(s, id)
    requires genuine != [] && forall r | r in pending :: r.orderId in s.minted && r.orderId !in s.puts
    ensures OrdersSafe(NextDelete(s, p, l, awards, genuine, pending, visit, id))
  {
    hide Proceed;
    if pending == [] {
      ProceedOrdersSafe(s, p, l, awards, genuine, visit, id);
    } else {
      assert pending[0] in pending;
      var s' := NextDelete(s, p, l, awards, genuine, pending, visit, id);
      OrderStepSafe(s, s', p, id);
    }
  }

  lemma WithOrdersSafe(s: System, p: nat, l: Local, awards: seq<Award>, listing: seq<Order>, visit: seq<Id>, id: Id)
    requires OrdersSafe(s) && FreshId(s, id) && forall r | r in listing :: Known(s, r.orderId)
    ensures OrdersSafe(WithOrders(s, p, l, awards, listing, visit, id))
  {
    hide Proceed;
    var mine := OfRequisition(listing, RequisitionOf(l));
    SplitMembers(s.sh, listing, RequisitionOf(l));
    if RealOrders(s.sh, mine) != [] {
      NextDeleteOrdersSafe(s, p, l, awards, RealOrders(s.sh, mine), SyntheticOrders(s.sh, mine), visit, id);
    }
    ProceedOrdersSafe(s, p, l, awards, mine, visit, id);
  }

  /** Forgetting an id that is neither in the table nor on its way there. */
  lemma DiscardSafe(s: System, id: Id)
    requires OrdersSafe(s) && id !in s.tables.orders && id !in s.puts
    ensures OrdersSafe(s.(sh := Discard(s.sh, id)))
  {
    var s' := s.(sh := Discard(s.sh, id));
    forall p | p in s'.pollers ensures PcOrders(s', s'.pollers[p]) { assert PcOrders(s, s.pollers[p]); }
  }

  lemma FetchOrdersSafe(s: System, step: Step)
    requires OrdersSafe(s) && Enabled(s, step) && step.FetchDone?
    ensures OrdersSafe(Apply(s, step))
  {
    hide Proceed;
    var l := LocalOf(s.sh, s.pollers[step.p], step.names);
    ProceedOrdersSafe(s, step.p, l, [], [], step.visit, step.id);
    QuietStepSafe(s, s.(pollers := s.pollers[step.p := Done(None)]));
    QuietStepSafe(s, s.(pollers := s.pollers[step.p := AwaitAwards(l, None)]));
  }

  lemma ResumeOrdersSafe(s: System, step: Step)
    requires OrdersSafe(s) && Enabled(s, step) && (step.OrdersDone? || step.OrdersFailed?)
    ensures OrdersSafe(Apply(s, step))
  {
    hide Proceed;
    var pc := s.pollers[step.p];
    assert PcOrders(s, pc);
    WithOrdersSafe(s, step.p, pc.l, pc.awards, if step.OrdersDone? then pc.listing.value else [], step.visit, step.id);
  }

  lemma DeleteDoneOrdersSafe(s: System, step: Step)
    requires OrdersSafe(s) && Enabled(s, step) && step.DeleteDone?
    ensures OrdersSafe(Apply(s, step))
  {
    hide Proceed;
    var pc := s.pollers[step.p];
    assert PcOrders(s, pc);
    assert pc.pending[0] in pc.pending;
    if step.ok { DiscardSafe(s, pc.pending[0].orderId); }
    var s1 := if step.ok then s.(sh := Discard(s.sh, pc.pending[0].orderId)) else s;
    NextDeleteOrdersSafe(s1, step.p, pc.l, pc.awards, pc.genuine, pc.pending[1..], step.visit, step.id);
  }

  /** Steps that move one poll and nothing the orders depend on. */
  lemma QuietStepSafe(s: System, s': System)
    requires OrdersSafe(s)
    requires s'.tables == s.tables && s'.puts == s.puts && s'.deletes == s.deletes && s'.minted == s.minted
    requires s'.realIds == s.realIds && s'.sh.syntheticOrders == s.sh.syntheticOrders
    requires s'.sh.syntheticNegotiations == s.sh.syntheticNegotiations
    requires forall p | p in s'.pollers :: PcOrders(s, s'.pollers[p])
    ensures OrdersSafe(s')
  {
    forall p | p in s'.pollers ensures PcOrders(s', s'.pollers[p]) { assert PcOrders(s, s'.pollers[p]); }
  }

  lemma LocalStepSafe(s: System, step: Step)
    requires OrdersSafe(s) && Enabled(s, step)
    requires step.Start? || step.Read? || step.Scan? || step.FetchFailed? || step.AwardsDone? || step.AwardsFailed?
    ensures OrdersSafe(Apply(s, step))
  {
    if step.Scan? {
      assert forall r | r in step.listed :: Known(s, r.orderId);
    }
    QuietStepSafe(s, Apply(s, step));
  }

  lemma TableStepSafe(s: System, step: Step)
    requires OrdersSafe(s) && Enabled(s, step) && (step.PutLands? || step.DeleteLands? || step.Environment?)
    ensures OrdersSafe(Apply(s, step))
  {
    var s' := Apply(s, step);
    forall p | p in s'.pollers ensures PcOrders(s', s'.pollers[p]) { assert PcOrders(s, s.pollers[p]); }
  }

  lemma StepOrdersSafe(s: System, step: Step)
    requires OrdersSafe(s) && Enabled(s, step)
    ensures OrdersSafe(Apply(s, step))
  {
    hide Diff, Finish;
    if step.FetchDone? {
      FetchOrdersSafe(s, step);
    } else if step.OrdersDone? || step.OrdersFailed? {
      ResumeOrdersSafe(s, step);
    } else if step.DeleteDone? {
      DeleteDoneOrdersSafe(s, step);
    } else if step.PutLands? || step.DeleteLands? || step.Environment? {
      TableStepSafe(s, step);
    } else if step.PutDone? {
      FinishKeepsTracking(s.sh, s.pollers[step.p].l, s.pollers[step.p].snapshot, []);
      QuietStepSafe(s, Apply(s, step));
    } else if step.Listen? || step.Leave? {
      QuietStepSafe(s, Apply(s, step));
    } else {
      LocalStepSafe(s, step);
    }
  }

  lemma {:induction false} RunOrdersSafe(s: System, steps: seq<Step>)
    requires OrdersSafe(s) && Legal(s, steps)
    ensures OrdersSafe(Exec(s, steps))
  {
    if steps != [] {
      RunOrdersSafe(s, steps[..|steps| - 1]);
      StepOrdersSafe(Exec(s, steps[..|steps| - 1]), steps[|steps| - 1]);
    }
  }

  lemma ReachableOrdersSafe(s: System)
    requires Reachable(s)
    ensures OrdersSafe(s)
  {
    hide Apply, Enabled;
    var steps :| Legal(START, steps) && Exec(START, steps) == s;
    RunOrdersSafe(START, steps);
  }

  // ---------------------------------------------------------------- main results

  /**
   * In every interleaving each negotiation is given at most one synthetic
   * order, each one still in the table is tracked, and deletes are only ever
   * issued for synthetic orders.
   */
  lemma SyntheticOrdersAreSafe(s: System)
    requires Reachable(s)
    ensures forall a, b | a in s.minted && b in s.minted && s.minted[a] == s.minted[b] :: a == b
    ensures forall id | id in s.minted && id in s.tables.orders :: id in s.sh.syntheticOrders
    ensures s.deletes <= s.minted.Keys
    ensures s.deletes !! s.realIds
  {
    ReachableOrdersSafe(s);
  }

  /** Only the environment can remove or rewrite a real order. */
  lemma RealOrdersSurvive(s: System, step: Step, s': System, id: Id)
    requires Reachable(s) && Next(s, step, s') && !step.Environment?
    requires id in s.tables.orders && id in s.realIds
    ensures id in s'.tables.orders && s'.tables.orders[id] == s.tables.orders[id]
  {
    hide Apply, Exec, Legal;
    ReachableOrdersSafe(s);
    if NamesPoll(step) {
      StepMoves(s, step);
    } else {
      LandingKeepsReal(s, step, id);
    }
  }

  lemma LandingKeepsReal(s: System, step: Step, id: Id)
    requires OrderTablesSafe(s) && Enabled(s, step) && !NamesPoll(step) && !step.Environment?
    requires id in s.tables.orders && id in s.realIds
    ensures id in Apply(s, step).tables.orders && Apply(s, step).tables.orders[id] == s.tables.orders[id]
  {
    if !step.PutLands? && !step.DeleteLands? {
      hide OrderTablesSafe;
      ListenersChangeNoTable(s, step);
    }
  }

  lemma ListenersChangeNoTable(s: System, step: Step)
    requires Enabled(s, step) && (step.Listen? || step.Leave?)
    ensures Apply(s, step).tables == s.tables
  {
  }

  /** The list a poll works with once its order read is back, or has failed. */
  ghost function OrdersOnView(s: System, step: Step): seq<Order>
    requires Enabled(s, step)
  {
    if step.OrdersDone? then OfRequisition(s.pollers[step.p].listing.value, RequisitionOf(s.pollers[step.p].l)) else []
  }

  /**
   * A synthetic order is minted only by a poll that read status APPROVED and
   * an award with an id, and that has no order of the requisition on view.
   */
  lemma MintedOnlyWhenApproved(s: System, step: Step)
    requires Reachable(s) && Enabled(s, step) && Apply(s, step).minted != s.minted
    ensures step.OrdersDone? || step.OrdersFailed?
    ensures var l := s.pollers[step.p].l;
      && l.fetched.negotiation.Some? && l.fetched.negotiation.value.status == "APPROVED"
      && TruthyIds(s.pollers[step.p].awards, AwardKey) != {}
      && OrdersOnView(s, step) == []
      && l.n !in s.sh.syntheticNegotiations && l.n in Apply(s, step).sh.syntheticNegotiations
  {
    hide Apply, Reachable;
    ReachableOrdersSafe(s);
    if step.FetchDone? {
      FetchMintsNothing(s, step);
    } else if step.DeleteDone? {
      assert PcOrders(s, s.pollers[step.p]);
      DeleteMintsNothing(s, step);
    } else if step.OrdersDone? || step.OrdersFailed? {
      OrdersMint(s, step);
    } else {
      OthersMintNothing(s, step);
    }
  }

  lemma OthersMintNothing(s: System, step: Step)
    requires Enabled(s, step) && !step.FetchDone? && !step.DeleteDone? && !step.OrdersDone? && !step.OrdersFailed?
    ensures Apply(s, step).minted == s.minted
  {
  }

  lemma ProceedMints(s: System, p: nat, l: Local, awards: seq<Award>, orders: seq<Order>, visit: seq<Id>, id: Id)
    requires Proceed(s, p, l, awards, orders, visit, id).minted != s.minted
    ensures l.fetched.negotiation.Some? && l.fetched.negotiation.value.status == "APPROVED"
    ensures TruthyIds(awards, AwardKey) != {} && orders == []
    ensures l.n !in s.sh.syntheticNegotiations
    ensures l.n in Proceed(s, p, l, awards, orders, visit, id).sh.syntheticNegotiations
  {
    hide Diff, Finish;
    DiffKeepsTracking(s.sh, l, awards, orders, visit);
  }

  lemma FetchMintsNothing(s: System, step: Step)
    requires Enabled(s, step) && step.FetchDone?
    ensures Apply(s, step).minted == s.minted
  {
    hide Diff, Finish;
    assert TruthyIds<Award>([], AwardKey) == {};
  }

  lemma DeleteMintsNothing(s: System, step: Step)
    requires Enabled(s, step) && step.DeleteDone? && s.pollers[step.p].genuine != []
    ensures Apply(s, step).minted == s.minted
  {
    hide Proceed;
    var pc := s.pollers[step.p];
    var s1 := if step.ok then s.(sh := Discard(s.sh, pc.pending[0].orderId)) else s;
    if Proceed(s1, step.p, pc.l, pc.awards, pc.genuine, step.visit, step.id).minted != s.minted {
      ProceedMints(s1, step.p, pc.l, pc.awards, pc.genuine, step.visit, step.id);
    }
  }

  lemma OrdersMint(s: System, step: Step)
    requires Enabled(s, step) && (step.OrdersDone? || step.OrdersFailed?) && Apply(s, step).minted != s.minted
    ensures var pc := s.pollers[step.p];
      && pc.l.fetched.negotiation.Some? && pc.l.fetched.negotiation.value.status == "APPROVED"
      && TruthyIds(pc.awards, AwardKey) != {} && pc.l.n !in s.sh.syntheticNegotiations
      && OrdersOnView(s, step) == []
      && pc.l.n in Apply(s, step).sh.syntheticNegotiations
  {
    hide Proceed;
    var pc := s.pollers[step.p];
    var mine := OfRequisition(if step.OrdersDone? then pc.listing.value else [], RequisitionOf(pc.l));
    ProceedMints(s, step.p, pc.l, pc.awards, mine, step.visit, step.id);
  }
}
