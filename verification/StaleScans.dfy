/**
 * Overlapping polls and a stale scan: a poll that resumes after another has
 * deleted the synthetic order shows it as a real one, in a run from the start.
 */
module StaleScans {
  import opened Basics
  import opened OrderRows
  import opened Projection
  import opened PollMachine
  import opened SyntheticOrderSafety
  import opened OrderConvergence
  import opened PollRuns
  import opened PollEffects

  lemma GenuineFinishes(s: System, p: nat, l: Local, awards: seq<Award>, orders: seq<Order>, visit: seq<Id>, id: Id)
    requires orders != []
    ensures var s' := Proceed(s, p, l, awards, orders, visit, id);
      && s'.minted == s.minted && s'.tables == s.tables && p in s'.pollers
      && s'.pollers[p] == Done(Some(BuildSnapshot(l, awards, orders)))
  {
    hide Diff, Finish;
  }

  /** Two polls hold the same listing of one real and one tracked synthetic order. */
  ghost predicate BothListed(s: System, p: nat, q: nat, genuine: Order, synthetic: Order) {
    && p != q && p in s.pollers && q in s.pollers
    && s.pollers[p].AwaitOrders? && s.pollers[p].listing == Some([genuine, synthetic])
    && s.pollers[q].AwaitOrders? && s.pollers[q].listing == Some([genuine, synthetic])
    && genuine.requisitionId == synthetic.requisitionId == RequisitionOf(s.pollers[p].l)
    && RequisitionOf(s.pollers[q].l) == synthetic.requisitionId
    && genuine.orderId !in s.sh.syntheticOrders && synthetic.orderId in s.sh.syntheticOrders
  }

  /** The first poll deletes the synthetic order and shows the real one. */
  lemma FirstPollDeletes(s: System, p: nat, q: nat, genuine: Order, synthetic: Order, visit: seq<Id>, id: Id)
    requires BothListed(s, p, q, genuine, synthetic) && Enabled(s, OrdersDone(p, visit, id))
    ensures var a, b, c := OrdersDone(p, visit, id), DeleteLands(synthetic.orderId), DeleteDone(p, true, visit, id);
      && Enabled(Apply(s, a), b) && Enabled(Apply(Apply(s, a), b), c)
      && var s3 := Apply(Apply(Apply(s, a), b), c);
         && p in s3.pollers && s3.pollers[p].Done? && s3.pollers[p].result.Some?
         && s3.pollers[p].result.value.orders == [genuine]
         && q in s3.pollers && s3.pollers[q] == s.pollers[q]
         && s3.sh.syntheticOrders == s.sh.syntheticOrders - {synthetic.orderId}
         && synthetic.orderId !in s3.tables.orders && s3.minted == s.minted && s3.realIds == s.realIds
  {
    hide Proceed;
    var a, b, c := OrdersDone(p, visit, id), DeleteLands(synthetic.orderId), DeleteDone(p, true, visit, id);
    var pc := s.pollers[p];
    TwoOrders(s.sh, genuine, synthetic);
    var s1 := s.(pollers := s.pollers[p := Deleting(pc.l, pc.awards, [genuine], [synthetic])],
                 deletes := s.deletes + {synthetic.orderId});
    assert Apply(s, a) == s1;
    var s2 := s1.(tables := s1.tables.(orders := s1.tables.orders - {synthetic.orderId}));
    assert Apply(s1, b) == s2;
    LastDelete(s2, p, pc.l, pc.awards, genuine, synthetic, visit, id);
  }

  lemma LastDelete(s: System, p: nat, l: Local, awards: seq<Award>, genuine: Order, synthetic: Order, visit: seq<Id>, id: Id)
    requires p in s.pollers && s.pollers[p] == Deleting(l, awards, [genuine], [synthetic])
    requires synthetic.orderId !in s.tables.orders && CanChoose(s, l, visit, id)
    ensures Enabled(s, DeleteDone(p, true, visit, id))
    ensures var s' := Apply(s, DeleteDone(p, true, visit, id));
      && MovesOnly(s, s', p) && s'.minted == s.minted
      && s'.pollers[p] == Done(Some(BuildSnapshot(l, awards, [genuine])))
      && s'.sh.syntheticOrders == s.sh.syntheticOrders - {synthetic.orderId}
  {
    hide Proceed;
    var s1 := s.(sh := Discard(s.sh, synthetic.orderId));
    GenuineFinishes(s1, p, l, awards, [genuine], visit, id);
    ProceedMoves(s1, p, l, awards, [genuine], visit, id);
    ProceedOrders(s1, p, l, awards, [genuine], visit, id);
    assert [synthetic][1..] == [];
  }

  /**
   * The second poll, resuming after the first has finished, no longer knows
   * the order for synthetic, and returns it although it is gone from the table.
   */
  lemma StaleScanShowsDeletedOrder(s: System, p: nat, q: nat, genuine: Order, synthetic: Order,
                                   visit: seq<Id>, id: Id, visitQ: seq<Id>)
    requires BothListed(s, p, q, genuine, synthetic) && Enabled(s, OrdersDone(p, visit, id))
    requires Enumerates(visitQ, NewOffers(s.pollers[q].l))
    ensures var steps := [OrdersDone(p, visit, id), DeleteLands(synthetic.orderId), DeleteDone(p, true, visit, id),
                          OrdersDone(q, visitQ, id)];
      && Legal(s, steps)
      && var s' := Exec(s, steps);
         && synthetic.orderId !in s'.tables.orders
         && q in s'.pollers && s'.pollers[q].Done? && s'.pollers[q].result.Some?
         && s'.pollers[q].result.value.orders == [genuine, synthetic]
  {
    var a, b, c, d := OrdersDone(p, visit, id), DeleteLands(synthetic.orderId), DeleteDone(p, true, visit, id),
                      OrdersDone(q, visitQ, id);
    hide Proceed, NextDelete;
    FirstPollDeletes(s, p, q, genuine, synthetic, visit, id);
    StaleResume(Apply(Apply(Apply(s, a), b), c), q, genuine, synthetic, d);
    FourSteps(s, a, b, c, d);
  }

  lemma StaleResume(s: System, q: nat, genuine: Order, synthetic: Order, step: Step)
    requires q in s.pollers && s.pollers[q].AwaitOrders? && s.pollers[q].listing == Some([genuine, synthetic])
    requires genuine.requisitionId == synthetic.requisitionId == RequisitionOf(s.pollers[q].l)
    requires genuine.orderId !in s.sh.syntheticOrders && synthetic.orderId !in s.sh.syntheticOrders
    requires Enabled(s, step) && step.OrdersDone? && step.p == q
    ensures var s' := Apply(s, step);
      && s'.tables == s.tables && q in s'.pollers && s'.pollers[q].Done? && s'.pollers[q].result.Some?
      && s'.pollers[q].result.value.orders == [genuine, synthetic]
  {
    hide Proceed;
    var qc := s.pollers[q];
    TwoUntracked(s.sh, genuine, synthetic);
    GenuineFinishes(s, q, qc.l, qc.awards, [genuine, synthetic], step.visit, step.id);
  }

  lemma PairParts(a: Order, b: Order)
    ensures [a, b][..1] == [a] && [a][..0] == [] && [a] + [b] == [a, b]
  {
  }

  lemma TwoOrders(sh: Shared, genuine: Order, synthetic: Order)
    requires genuine.orderId !in sh.syntheticOrders && synthetic.orderId in sh.syntheticOrders
    requires genuine.requisitionId == synthetic.requisitionId
    ensures OfRequisition([genuine, synthetic], synthetic.requisitionId) == [genuine, synthetic]
    ensures RealOrders(sh, [genuine, synthetic]) == [genuine] && SyntheticOrders(sh, [genuine, synthetic]) == [synthetic]
  {
    PairParts(genuine, synthetic);
    assert OfRequisition([genuine], synthetic.requisitionId) == [genuine];
    assert Partition([genuine], sh.syntheticOrders, false) == [genuine];
    assert Partition([genuine], sh.syntheticOrders, true) == [];
  }

  lemma TwoUntracked(sh: Shared, genuine: Order, synthetic: Order)
    requires genuine.orderId !in sh.syntheticOrders && synthetic.orderId !in sh.syntheticOrders
    requires genuine.requisitionId == synthetic.requisitionId
    ensures OfRequisition([genuine, synthetic], synthetic.requisitionId) == [genuine, synthetic]
    ensures SyntheticOrders(sh, [genuine, synthetic]) == []
  {
    PairParts(genuine, synthetic);
    assert OfRequisition([genuine], synthetic.requisitionId) == [genuine];
    assert Partition([genuine], sh.syntheticOrders, true) == [];
  }

  lemma FourSteps(s: System, a: Step, b: Step, c: Step, d: Step)
    requires Enabled(s, a) && Enabled(Apply(s, a), b) && Enabled(Apply(Apply(s, a), b), c)
    requires Enabled(Apply(Apply(Apply(s, a), b), c), d)
    ensures Legal(s, [a, b, c, d]) && Exec(s, [a, b, c, d]) == Apply(Apply(Apply(Apply(s, a), b), c), d)
  {
    assert Legal(s, []) && [] + [a] == [a] && [a] + [b] == [a, b] && [a, b] + [c] == [a, b, c] && [a, b, c] + [d] == [a, b, c, d];
    ExecOne(s, [], a);
    ExecOne(s, [a], b);
    ExecOne(s, [a, b], c);
    ExecOne(s, [a, b, c], d);
  }

  // ---------------------------------------------------------------- the whole run

  const AWARD := Award("a", "s", "", 1.0, 0.0)
  const REAL := Order("o", "r", TENANT_ID, "s", "", "RECEIVED", 1.0, 0.0, 0.0, "a")

  function WithOrderRows(orders: map<Id, Order>): Tables {
    Tables(map["n" := Negotiation("r", "APPROVED", "", "")], map[], map[], map[], map["r" := [AWARD]], orders)
  }

  /** The poll claims the order and waits for its put. */
  lemma Claims(s: System, p: nat, l: Local, visit: seq<Id>, id: Id)
    requires l.n !in s.sh.syntheticNegotiations && l.n == "n" && RequisitionOf(l) == "r"
    requires l.fetched.negotiation.Some? && l.fetched.negotiation.value.status == "APPROVED"
    ensures var s', order := Proceed(s, p, l, [AWARD], [], visit, id), SyntheticOrder(id, l, [AWARD]);
      && s'.pollers[p].AwaitPut? && s'.minted == s.minted[id := "n"] && s'.puts == s.puts[id := order]
      && order.orderId == id && order.requisitionId == "r"
  {
    hide Diff, Finish;
    DiffKeepsTracking(s.sh, l, [AWARD], [], visit);
    AwardHasId();
    SyntheticRowRoundTrip(id, RequisitionOf(l), TENANT_ID, AWARD, WinnerName(AWARD, l.fetched.names));
  }

  lemma AwardHasId()
    ensures TruthyIds([AWARD], AwardKey) != {}
  {
    assert AwardKey([AWARD][0]) in KeySet([AWARD], AwardKey);
    assert |AWARD.awardId| == 1;
    assert AWARD.awardId in TruthyIds([AWARD], AwardKey);
  }

  lemma RowsOf(s: System, orders: map<Id, Order>)
    requires s.tables == WithOrderRows(orders)
    ensures var l := RowsNow(s, "n");
      && l.n == "n" && RequisitionOf(l) == "r" && Lookup(s.tables.awards, "r", []) == [AWARD]
      && l.fetched.negotiation.Some? && l.fetched.negotiation.value.status == "APPROVED"
      && "n" in s.tables.negotiations && Truthy(s.tables.negotiations["n"].requisitionId)
  {
  }

  /** A first poll finds an approved award and no order, and mints one. */
  lemma FirstPollMints() returns (s: System, order: Order)
    ensures Reachable(s) && s.tables == WithOrderRows(map[]) && s.pollers.Keys == {1} && s.pollers[1].AwaitPut?
    ensures s.minted == map["x" := "n"] && s.realIds == {} && s.puts == map["x" := order]
    ensures order.orderId == "x" && order.requisitionId == "r"
  {
    hide RowsNow, Proceed, Reachable, SyntheticOrder;
    var s0 := START.(tables := WithOrderRows(map[]));
    TablesAppear(WithOrderRows(map[]));
    RowsOf(s0, map[]);
    var l := RowsNow(s0, "n");
    PollAwaitsOrders(s0, 1, "n", "x");
    PollScans(s0, 1, l, [AWARD], []);
    var s1 := At(s0, 1, AwaitOrders(l, [AWARD], Some([])));
    var visit := SomeVisit(NewOffers(l));
    var step := OrdersDone(1, visit, "x");
    s := Apply(s1, step);
    Then(s1, step);
    NoneInHand(s1, l);
    assert s == Proceed(s1, 1, l, [AWARD], [], visit, "x");
    Claims(s1, 1, l, visit, "x");
    ProceedMoves(s1, 1, l, [AWARD], [], visit, "x");
    order := SyntheticOrder("x", l, [AWARD]);
  }

  lemma NoneInHand(s: System, l: Local)
    ensures OfRequisition([], RequisitionOf(l)) == [] && RealOrders(s.sh, []) == []
  {
  }

  /** Its put lands, and it finishes. */
  lemma PutIsDone() returns (s: System, order: Order)
    ensures Reachable(s) && s.tables == WithOrderRows(map["x" := order]) && s.pollers.Keys == {1}
    ensures s.minted == map["x" := "n"] && s.realIds == {}
    ensures order.orderId == "x" && order.requisitionId == "r"
  {
    hide Reachable, AfterFetch, WithOrders, NextDelete, Finish;
    var s1;
    s1, order := FirstPollMints();
    Then(s1, PutLands("x"));
    var s2 := Apply(s1, PutLands("x"));
    Then(s2, PutDone(1));
    s := Apply(s2, PutDone(1));
    StepMoves(s2, PutDone(1));
  }

  /** A real order arrives. */
  lemma RealArrives() returns (s: System, order: Order)
    ensures Reachable(s) && s.tables == WithOrderRows(map["x" := order, "o" := REAL]) && s.pollers.Keys == {1}
    ensures s.minted == map["x" := "n"] && s.realIds == {"o"}
    ensures order.orderId == "x" && order.requisitionId == "r"
  {
    hide Reachable, AfterFetch, WithOrders, NextDelete, Finish;
    var s1;
    s1, order := PutIsDone();
    var step := Environment(WithOrderRows(map["x" := order, "o" := REAL]));
    assert s1.minted.Keys == {"x"};
    Then(s1, step);
    s := Apply(s1, step);
  }

  /** Two polls scan the table with both orders in it. */
  lemma BothScan() returns (s: System, order: Order)
    ensures Reachable(s) && BothListed(s, 2, 3, REAL, order) && order.orderId in s.minted
    ensures s.minted.Keys == {"x"} && s.realIds == {"o"}
  {
    hide RowsNow, Reachable, OrdersSafe;
    var s1;
    s1, order := RealArrives();
    var orders := map["x" := order, "o" := REAL];
    RowsOf(s1, orders);
    var l := RowsNow(s1, "n");
    PollAwaitsOrders(s1, 2, "n", "v");
    PollScans(s1, 2, l, [AWARD], [REAL, order]);
    var s2 := At(s1, 2, AwaitOrders(l, [AWARD], Some([REAL, order])));
    SameRows(s1, s2, "n");
    PollAwaitsOrders(s2, 3, "n", "v");
    PollScans(s2, 3, l, [AWARD], [REAL, order]);
    s := At(s2, 3, AwaitOrders(l, [AWARD], Some([REAL, order])));
    ReachableOrdersSafe(s);
    TrackedWhilePresent(s, order);
  }

  lemma TrackedWhilePresent(s: System, order: Order)
    requires OrdersSafe(s) && s.tables.orders == map["x" := order, "o" := REAL] && order.orderId == "x"
    requires s.minted.Keys == {"x"} && s.realIds == {"o"}
    ensures "x" in s.sh.syntheticOrders && "o" !in s.sh.syntheticOrders
  {
  }

  /** The poll has returned a synthetic order that is out of the table, beside a real one. */
  ghost predicate ShowsDeleted(s: System, p: nat) {
    && p in s.pollers && s.pollers[p].Done? && s.pollers[p].result.Some?
    && AnyReal(s, s.pollers[p].result.value.orders)
    && exists o | o in s.pollers[p].result.value.orders :: o.orderId in s.minted && o.orderId !in s.tables.orders
  }

  /** In some run a poll shows a deleted synthetic order beside the real one. */
  lemma DeletedOrderIsShown()
    ensures exists s, p :: Reachable(s) && ShowsDeleted(s, p)
  {
    hide Reachable, Legal, Exec, Apply, OrdersSafe;
    var s, order := BothScan();
    var visit := SomeVisit(NewOffers(s.pollers[2].l));
    var other := SomeVisit(NewOffers(s.pollers[3].l));
    StaleScanShowsDeletedOrder(s, 2, 3, REAL, order, visit, "w", other);
    var steps := [OrdersDone(2, visit, "w"), DeleteLands(order.orderId), DeleteDone(2, true, visit, "w"), OrdersDone(3, other, "w")];
    RunIsReachable(s, steps);
    RunTracks(s, steps, order.orderId);
    var end := Exec(s, steps);
    ReachableOrdersSafe(end);
    ReachableOrdersSafe(s);
    RealIdsGrow(s, steps);
    RealNotMinted(end);
    assert REAL in end.pollers[3].result.value.orders;
    assert order in end.pollers[3].result.value.orders;
    assert ShowsDeleted(end, 3);
  }

  lemma RealNotMinted(s: System)
    requires OrdersSafe(s) && "o" in s.realIds
    ensures "o" !in s.minted
  {
  }

  // ---------------------------------------------------------------- a failed read

  /** A negotiation that has had its synthetic order gets no other: the poll finishes. */
  lemma ClaimedFinishes(s: System, p: nat, l: Local, awards: seq<Award>, orders: seq<Order>, visit: seq<Id>, id: Id)
    requires l.n in s.sh.syntheticNegotiations
    ensures Proceed(s, p, l, awards, orders, visit, id).pollers[p].Done?
    ensures Proceed(s, p, l, awards, orders, visit, id).minted == s.minted
  {
    hide Diff, Finish;
    DiffKeepsTracking(s.sh, l, awards, orders, visit);
  }

  /** The poll has returned no order although a real one of its requisition is in the table. */
  ghost predicate HidesReal(s: System, p: nat) {
    && p in s.pollers && s.pollers[p].Done? && s.pollers[p].result.Some?
    && s.pollers[p].result.value.orders == []
    && exists id | id in s.tables.orders && id !in s.minted ::
         s.tables.orders[id].requisitionId == s.pollers[p].result.value.requisitionId
  }

  /** A poll of a negotiation that has had its order, when the order read fails, returns no order. */
  lemma FailedReadReturnsNone(s: System, p: nat, l: Local, visit: seq<Id>, id: Id)
    requires Reachable(s) && s.minted == map["x" := "n"] && l.n == "n"
    requires Enabled(s, OrdersFailed(p, visit, id)) && s.pollers[p] == AwaitOrders(l, [AWARD], None)
    ensures var s' := Apply(s, OrdersFailed(p, visit, id));
      && MovesOnly(s, s', p) && s'.minted == s.minted && s'.pollers[p] == Done(Some(BuildSnapshot(l, [AWARD], [])))
  {
    hide Apply, Proceed, OrdersSafe, BuildSnapshot;
    var step := OrdersFailed(p, visit, id);
    ReachableOrdersSafe(s);
    Claimed(s);
    StepMoves(s, step);
    ResumeDiffs(s, step);
    ClaimedFinishes(s, p, l, [AWARD], [], visit, id);
    ProceedEffects(s, p, l, [AWARD], [], visit, id);
  }

  /** In some run a poll whose order read fails returns no order beside a real one in the table. */
  lemma FailedReadHidesRealOrder()
    ensures exists s, p :: Reachable(s) && HidesReal(s, p)
  {
    hide RowsNow, Reachable, Apply, Proceed, BuildSnapshot;
    var s1, order := RealArrives();
    RowsOf(s1, map["x" := order, "o" := REAL]);
    var l := RowsNow(s1, "n");
    PollAwaitsOrders(s1, 2, "n", "v");
    var s2 := At(s1, 2, AwaitOrders(l, [AWARD], None));
    var visit := SomeVisit(NewOffers(l));
    var step := OrdersFailed(2, visit, "v");
    var s3 := Apply(s2, step);
    Then(s2, step);
    FailedReadReturnsNone(s2, 2, l, visit, "v");
    SnapshotParts(l, [AWARD], []);
    RequisitionShown(l);
    assert REAL.orderId !in s3.minted && s3.tables.orders["o"] == REAL;
    assert HidesReal(s3, 2);
  }

  lemma RequisitionShown(l: Local)
    ensures BuildSnapshot(l, [AWARD], []).requisitionId == RequisitionOf(l)
  {
  }

  lemma Claimed(s: System)
    requires OrdersSafe(s) && s.minted == map["x" := "n"]
    ensures "n" in s.sh.syntheticNegotiations
  {
    assert "x" in s.minted && s.minted["x"] == "n";
  }
}
