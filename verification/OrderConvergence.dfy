/**
 * What becomes of a synthetic order once a real one is on view, in any
 * interleaving: which orders a poll returns, exactly when a synthetic one is
 * shown beside a real one, and that one whose delete has succeeded is gone for
 * good, with none to follow it.
 */
module OrderConvergence {
  import opened Basics
  import opened OrderRows
  import opened Projection
  import opened PollMachine
  import opened PollStreams
  import opened PollEffects
  import opened SyntheticOrderSafety

  /** The order list a poll goes on with, given which ids are tracked as synthetic. */
  function Shown(sh: Shared, mine: seq<Order>): seq<Order> {
    if RealOrders(sh, mine) != [] && SyntheticOrders(sh, mine) != [] then RealOrders(sh, mine) else mine
  }

  // ---------------------------------------------------------------- the orders a poll returns

  /** The poll has settled on the orders it will return, or has returned them. */
  ghost predicate Settled(pc: Pc, orders: seq<Order>) {
    match pc
    case Deleting(_, _, genuine, _) => genuine == orders
    case AwaitPut(_, snap, _) => snap.orders == orders
    case Done(result) => result.Some? && result.value.orders == orders
    case _ => false
  }

  lemma ProceedSettles(s: System, p: nat, l: Local, awards: seq<Award>, orders: seq<Order>, visit: seq<Id>, id: Id)
    ensures Settled(Proceed(s, p, l, awards, orders, visit, id).pollers[p], orders)
  {
    hide Proceed;
    ProceedEffects(s, p, l, awards, orders, visit, id);
    SnapshotParts(l, awards, orders);
  }

  lemma NothingShown(sh: Shared)
    ensures Shown(sh, []) == []
  {
  }

  /** The poll goes on from its order read, which has succeeded or failed. */
  predicate LeavesRead(step: Step) {
    step.OrdersDone? || step.OrdersFailed?
  }

  lemma ResumeSettles(s: System, resume: Step)
    requires Enabled(s, resume) && LeavesRead(resume)
    ensures resume.p in Apply(s, resume).pollers
    ensures Settled(Apply(s, resume).pollers[resume.p], Shown(s.sh, OrdersInHand(s, resume)))
  {
    hide Apply, Proceed, CanChoose, OfRequisition, Partition;
    NothingShown(s.sh);
    if Diffs(s, resume) {
      ResumeDiffs(s, resume);
      ProceedSettles(s, resume.p, PublisherLocal(s, resume), PublisherAwards(s, resume), OrdersInHand(s, resume), resume.visit, resume.id);
    } else {
      ResumeWaits(s, resume);
    }
  }

  lemma MoverStaysSettled(s: System, step: Step, orders: seq<Order>)
    requires Enabled(s, step) && NamesPoll(step) && step.p in s.pollers && Settled(s.pollers[step.p], orders)
    ensures step.p in Apply(s, step).pollers && Settled(Apply(s, step).pollers[step.p], orders)
  {
    if Resumes(step) {
      hide Apply, Proceed, CanChoose;
      if Diffs(s, step) {
        ResumeDiffs(s, step);
        ProceedSettles(s.(sh := Noted(s, step)), step.p, PublisherLocal(s, step), PublisherAwards(s, step), OrdersInHand(s, step),
                       step.visit, step.id);
      } else {
        ResumeWaits(s, step);
      }
    } else {
      hide Finish;
    }
  }

  lemma StepStaysSettled(s: System, step: Step, p: nat, orders: seq<Order>)
    requires Enabled(s, step) && p in s.pollers && Settled(s.pollers[p], orders)
    ensures p in Apply(s, step).pollers && Settled(Apply(s, step).pollers[p], orders)
  {
    hide Apply, Enabled, Settled;
    if NamesPoll(step) {
      StepMoves(s, step);
      if step.p == p { MoverStaysSettled(s, step, orders); }
    } else {
      OtherPollersStay(s, step);
    }
  }

  lemma {:induction false} RunStaysSettled(s: System, steps: seq<Step>, p: nat, orders: seq<Order>)
    requires Legal(s, steps) && p in s.pollers && Settled(s.pollers[p], orders)
    ensures p in Exec(s, steps).pollers && Settled(Exec(s, steps).pollers[p], orders)
  {
    hide Apply, Enabled, Settled;
    if steps != [] {
      RunStaysSettled(s, steps[..|steps| - 1], p, orders);
      StepStaysSettled(Exec(s, steps[..|steps| - 1]), steps[|steps| - 1], p, orders);
    }
  }

  /**
   * Whatever else runs, the snapshot a poll returns after its order read holds
   * the orders shown by what was tracked when it resumed; after a failed read
   * that is no order at all.
   */
  lemma PollReturnsShown(s: System, resume: Step, rest: seq<Step>)
    requires Enabled(s, resume) && LeavesRead(resume) && Legal(Apply(s, resume), rest)
    ensures var s' := Exec(Apply(s, resume), rest);
      && resume.p in s'.pollers
      && (s'.pollers[resume.p].Done? ==>
            && s'.pollers[resume.p].result.Some?
            && s'.pollers[resume.p].result.value.orders == Shown(s.sh, OrdersInHand(s, resume)))
    ensures resume.OrdersFailed? ==> Shown(s.sh, OrdersInHand(s, resume)) == []
  {
    hide Apply, Enabled;
    ResumeSettles(s, resume);
    RunStaysSettled(Apply(s, resume), rest, resume.p, Shown(s.sh, OrdersInHand(s, resume)));
  }

  // ---------------------------------------------------------------- what stays tracked

  /** The step is the return of a successful delete of `id`. */
  ghost predicate ReturnsDelete(s: System, step: Step, id: Id)
    requires Enabled(s, step)
  {
    step.DeleteDone? && step.ok && s.pollers[step.p].pending[0].orderId == id
  }

  /** Some poll's delete of `id` returned during the run. */
  ghost predicate DeletedIn(s: System, steps: seq<Step>, id: Id)
    requires Legal(s, steps)
    decreases |steps|
  {
    steps != [] &&
    var init, last := steps[..|steps| - 1], steps[|steps| - 1];
    DeletedIn(s, init, id) || ReturnsDelete(Exec(s, init), last, id)
  }

  lemma ProceedTracks(s: System, p: nat, l: Local, awards: seq<Award>, orders: seq<Order>, visit: seq<Id>, minting: Id, id: Id)
    requires FreshId(s, minting) && id in s.minted
    ensures var s' := Proceed(s, p, l, awards, orders, visit, minting);
      id in s'.minted && s'.minted[id] == s.minted[id]
      && (id in s'.sh.syntheticOrders <==> id in s.sh.syntheticOrders)
      && (id in s'.puts <==> id in s.puts) && s'.tables == s.tables
  {
    hide Proceed;
    ProceedOrders(s, p, l, awards, orders, visit, minting);
    ProceedMoves(s, p, l, awards, orders, visit, minting);
  }

  lemma PutDoneTracks(s: System, step: Step)
    requires Enabled(s, step) && step.PutDone?
    ensures var s' := Apply(s, step);
      s'.sh.syntheticOrders == s.sh.syntheticOrders && s'.minted == s.minted && s'.puts == s.puts && s'.tables == s.tables
  {
    hide Finish;
    FinishKeepsTracking(s.sh, s.pollers[step.p].l, s.pollers[step.p].snapshot, []);
  }

  lemma QuietTracks(s: System, step: Step)
    requires Enabled(s, step) && !Resumes(step) && !step.PutDone?
    ensures Apply(s, step).sh.syntheticOrders == s.sh.syntheticOrders && Apply(s, step).minted == s.minted
  {
  }

  /** A minted id stops being tracked when a delete of it returns, and at no other time. */
  lemma StepTracks(s: System, step: Step, id: Id)
    requires Enabled(s, step) && id in s.minted
    ensures id in Apply(s, step).minted && Apply(s, step).minted[id] == s.minted[id]
    ensures id in Apply(s, step).sh.syntheticOrders <==> id in s.sh.syntheticOrders && !ReturnsDelete(s, step, id)
  {
    hide Apply, Proceed, Diffs, PublisherLocal, PublisherAwards, OrdersInHand;
    if step.PutDone? {
      PutDoneTracks(s, step);
    } else if !Resumes(step) {
      QuietTracks(s, step);
    } else if Diffs(s, step) {
      ResumeDiffs(s, step);
      ProceedTracks(s.(sh := Noted(s, step)), step.p, PublisherLocal(s, step), PublisherAwards(s, step), OrdersInHand(s, step),
                    step.visit, step.id, id);
    } else {
      ResumeWaits(s, step);
    }
  }

  lemma {:induction false} RunTracks(s: System, steps: seq<Step>, id: Id)
    requires Legal(s, steps) && id in s.minted
    ensures id in Exec(s, steps).minted && Exec(s, steps).minted[id] == s.minted[id]
    ensures id in Exec(s, steps).sh.syntheticOrders <==> id in s.sh.syntheticOrders && !DeletedIn(s, steps, id)
  {
    hide Apply, Enabled, ReturnsDelete;
    if steps != [] {
      RunTracks(s, steps[..|steps| - 1], id);
      StepTracks(Exec(s, steps[..|steps| - 1]), steps[|steps| - 1], id);
    }
  }

  // ---------------------------------------------------------------- from the scan to the resumption

  ghost predicate AtOrPast(pc: Pc, scanned: Pc) {
    pc == scanned || pc.Deleting? || pc.AwaitPut? || pc.Done?
  }

  lemma MoverStaysPast(s: System, step: Step, scanned: Pc)
    requires scanned.AwaitOrders? && scanned.listing.Some?
    requires Enabled(s, step) && NamesPoll(step) && step.p in s.pollers && AtOrPast(s.pollers[step.p], scanned)
    ensures step.p in Apply(s, step).pollers && AtOrPast(Apply(s, step).pollers[step.p], scanned)
  {
    if Resumes(step) {
      hide Apply, Proceed, CanChoose, OfRequisition, Partition;
      if Diffs(s, step) {
        ResumeDiffs(s, step);
        ProceedSettles(s.(sh := Noted(s, step)), step.p, PublisherLocal(s, step), PublisherAwards(s, step), OrdersInHand(s, step),
                       step.visit, step.id);
      } else {
        ResumeWaits(s, step);
      }
    } else {
      hide Finish;
    }
  }

  /** A poll that still awaits its order read has the listing it scanned. */
  lemma {:induction false} ListingStays(s: System, steps: seq<Step>, p: nat, scanned: Pc)
    requires Legal(s, steps) && scanned.AwaitOrders? && scanned.listing.Some?
    requires p in s.pollers && AtOrPast(s.pollers[p], scanned)
    ensures p in Exec(s, steps).pollers && AtOrPast(Exec(s, steps).pollers[p], scanned)
  {
    hide Apply, Enabled, AtOrPast;
    if steps != [] {
      var init, last := steps[..|steps| - 1], steps[|steps| - 1];
      var s1 := Exec(s, init);
      ListingStays(s, init, p, scanned);
      if NamesPoll(last) {
        StepMoves(s1, last);
        if last.p == p { MoverStaysPast(s1, last, scanned); }
      } else {
        OtherPollersStay(s1, last);
      }
    }
  }

  /** A poll scans in a reachable state `s`, anything runs, and the poll resumes with its listing. */
  ghost predicate ScansAndResumes(s: System, p: nat, rows: seq<Order>, between: seq<Step>, resume: Step) {
    && Reachable(s) && Enabled(s, Scan(p, rows))
    && Legal(Scanned(s, p, rows), between)
    && resume.OrdersDone? && resume.p == p
    && Enabled(Exec(Scanned(s, p, rows), between), resume)
  }

  ghost function Scanned(s: System, p: nat, rows: seq<Order>): System
    requires Enabled(s, Scan(p, rows))
  {
    Apply(s, Scan(p, rows))
  }

  ghost function Mine(s: System, p: nat, rows: seq<Order>): seq<Order>
    requires Enabled(s, Scan(p, rows))
  {
    OfRequisition(rows, RequisitionOf(s.pollers[p].l))
  }

  lemma ScanEffect(s: System, p: nat, rows: seq<Order>)
    requires Enabled(s, Scan(p, rows))
    ensures var s1 := Scanned(s, p, rows);
      && s1 == s.(pollers := s.pollers[p := s.pollers[p].(listing := Some(rows))])
  {
  }

  /** What is in hand when the poll resumes is what it scanned; each minted row of it was tracked then. */
  lemma ResumesWithListing(s: System, p: nat, rows: seq<Order>, between: seq<Step>, resume: Step)
    requires ScansAndResumes(s, p, rows, between, resume)
    ensures var s1 := Scanned(s, p, rows); var s2 := Exec(s1, between);
      && OrdersSafe(s) && OrdersSafe(s2)
      && OrdersInHand(s2, resume) == Mine(s, p, rows)
      && forall o | o in Mine(s, p, rows) && o.orderId in s.minted ::
           && o.orderId in s2.minted && s2.minted[o.orderId] == s.minted[o.orderId]
           && (o.orderId in s2.sh.syntheticOrders <==> !DeletedIn(s1, between, o.orderId))
  {
    hide CanChoose, Finish, AfterFetch, WithOrders, NextDelete, OfRequisition;
    var s1 := Scanned(s, p, rows);
    var s2 := Exec(s1, between);
    ReachableOrdersSafe(s);
    StepOrdersSafe(s, Scan(p, rows));
    RunOrdersSafe(s1, between);
    ScanEffect(s, p, rows);
    hide Apply;
    ListingStays(s1, between, p, s1.pollers[p]);
    OfRequisitionMembers(rows, RequisitionOf(s.pollers[p].l));
    forall o | o in Mine(s, p, rows) && o.orderId in s.minted
      ensures o.orderId in s2.minted && s2.minted[o.orderId] == s.minted[o.orderId]
      ensures o.orderId in s2.sh.syntheticOrders <==> !DeletedIn(s1, between, o.orderId)
    {
      assert o in rows;
      RunTracks(s1, between, o.orderId);
    }
  }

  /** Rows that were real when scanned are untracked ever after. */
  lemma RealStaysReal(s: System, p: nat, rows: seq<Order>, between: seq<Step>, resume: Step, o: Order)
    requires ScansAndResumes(s, p, rows, between, resume) && o in Mine(s, p, rows) && o.orderId !in s.minted
    ensures o.orderId !in Exec(Scanned(s, p, rows), between).minted
  {
    hide CanChoose, Finish, AfterFetch, WithOrders, NextDelete, OfRequisition;
    var s1 := Scanned(s, p, rows);
    ReachableOrdersSafe(s);
    StepOrdersSafe(s, Scan(p, rows));
    ScanEffect(s, p, rows);
    OfRequisitionMembers(rows, RequisitionOf(s.pollers[p].l));
    assert o in rows && o.orderId in s1.realIds;
    hide Apply;
    RealIdsGrow(s1, between);
    RunOrdersSafe(s1, between);
  }

  lemma {:induction false} RealIdsGrow(s: System, steps: seq<Step>)
    requires Legal(s, steps)
    ensures s.realIds <= Exec(s, steps).realIds
  {
    hide Apply, Enabled;
    if steps != [] {
      var init, last := steps[..|steps| - 1], steps[|steps| - 1];
      RealIdsGrow(s, init);
      if NamesPoll(last) { StepMoves(Exec(s, init), last); } else { OtherRealIds(Exec(s, init), last); }
    }
  }

  lemma OtherRealIds(s: System, step: Step)
    requires Enabled(s, step) && !NamesPoll(step)
    ensures s.realIds <= Apply(s, step).realIds
  {
  }

  // ---------------------------------------------------------------- main results

  /** A real order is in hand. */
  ghost predicate AnyReal(s: System, orders: seq<Order>) {
    exists o | o in orders :: o.orderId !in s.minted
  }

  ghost predicate AnySynthetic(s: System, orders: seq<Order>) {
    exists o | o in orders :: o.orderId in s.minted
  }

  lemma ShownMembers(sh: Shared, mine: seq<Order>)
    ensures forall o | o in Shown(sh, mine) :: o in mine
    ensures forall o | o in mine && o.orderId !in sh.syntheticOrders :: o in Shown(sh, mine)
    ensures forall o | o in Shown(sh, mine) && o.orderId in sh.syntheticOrders :: RealOrders(sh, mine) == []
  {
    PartitionMembers(mine, sh.syntheticOrders, false);
    PartitionMembers(mine, sh.syntheticOrders, true);
  }

  /**
   * In any interleaving a poll shows a synthetic order beside a real one if
   * and only if its scan listed a real order of the requisition and a synthetic
   * one whose delete, by some poll, returned between the scan and the resumption.
   */
  lemma SyntheticShownExactlyWhenDeletedMeanwhile(s: System, p: nat, rows: seq<Order>, between: seq<Step>, resume: Step,
                                                  rest: seq<Step>, snap: Snapshot)
    requires ScansAndResumes(s, p, rows, between, resume)
    requires var s2 := Exec(Scanned(s, p, rows), between);
             Legal(Apply(s2, resume), rest) && p in Exec(Apply(s2, resume), rest).pollers
             && Exec(Apply(s2, resume), rest).pollers[p] == Done(Some(snap))
    ensures AnyReal(s, snap.orders) && AnySynthetic(s, snap.orders) <==>
            && AnyReal(s, Mine(s, p, rows))
            && exists o | o in Mine(s, p, rows) && o.orderId in s.minted :: DeletedIn(Scanned(s, p, rows), between, o.orderId)
  {
    hide Apply, Enabled, Exec, Legal, Shown, DeletedIn, OrdersInHand, Mine, Scanned;
    var s1, mine := Scanned(s, p, rows), Mine(s, p, rows);
    var s2 := Exec(s1, between);
    ResumesWithListing(s, p, rows, between, resume);
    PollReturnsShown(s2, resume, rest);
    ShownMembers(s2.sh, mine);
    RealIsUntracked(s, p, rows, between, resume);
    if AnyReal(s, mine) {
      var o :| o in mine && o.orderId !in s.minted;
      assert o in snap.orders;
      PartitionMembers(mine, s2.sh.syntheticOrders, false);
    }
  }

  lemma RealIsUntracked(s: System, p: nat, rows: seq<Order>, between: seq<Step>, resume: Step)
    requires ScansAndResumes(s, p, rows, between, resume)
    ensures forall o | o in Mine(s, p, rows) && o.orderId !in s.minted ::
              o.orderId !in Exec(Scanned(s, p, rows), between).sh.syntheticOrders
  {
    hide Apply, Enabled, Exec, Legal, Mine, Scanned, OrdersInHand;
    forall o | o in Mine(s, p, rows) && o.orderId !in s.minted
      ensures o.orderId !in Exec(Scanned(s, p, rows), between).sh.syntheticOrders
    {
      RealStaysReal(s, p, rows, between, resume, o);
      ResumesWithListing(s, p, rows, between, resume);
    }
  }

  /**
   * Unless that happens, a poll that listed a real order of its requisition
   * returns exactly the real orders the table held when it scanned.
   */
  lemma PollShowsRealOrders(s: System, p: nat, rows: seq<Order>, between: seq<Step>, resume: Step, rest: seq<Step>, snap: Snapshot)
    requires ScansAndResumes(s, p, rows, between, resume)
    requires var s2 := Exec(Scanned(s, p, rows), between);
             Legal(Apply(s2, resume), rest) && p in Exec(Apply(s2, resume), rest).pollers
             && Exec(Apply(s2, resume), rest).pollers[p] == Done(Some(snap))
    requires AnyReal(s, Mine(s, p, rows))
    requires forall o | o in Mine(s, p, rows) && o.orderId in s.minted :: !DeletedIn(Scanned(s, p, rows), between, o.orderId)
    ensures forall o :: o in snap.orders <==>
              && o.orderId in s.tables.orders && s.tables.orders[o.orderId] == o
              && o.requisitionId == RequisitionOf(s.pollers[p].l) && o.orderId !in s.minted
  {
    SyntheticShownExactlyWhenDeletedMeanwhile(s, p, rows, between, resume, rest, snap);
    MineIsCurrent(s, p, rows);
    hide Apply, Enabled, Exec, Legal, Shown, DeletedIn, OrdersInHand, Mine, Scanned;
    var mine, s2 := Mine(s, p, rows), Exec(Scanned(s, p, rows), between);
    ResumesWithListing(s, p, rows, between, resume);
    PollReturnsShown(s2, resume, rest);
    ShownMembers(s2.sh, mine);
    RealIsUntracked(s, p, rows, between, resume);
    var r :| r in mine && r.orderId !in s.minted;
    assert r in snap.orders;
  }

  lemma MineIsCurrent(s: System, p: nat, rows: seq<Order>)
    requires Enabled(s, Scan(p, rows)) && Reachable(s)
    ensures forall o :: o in Mine(s, p, rows) <==>
              && o.orderId in s.tables.orders && s.tables.orders[o.orderId] == o && o.requisitionId == RequisitionOf(s.pollers[p].l)
  {
    hide OfRequisition;
    OfRequisitionMembers(rows, RequisitionOf(s.pollers[p].l));
  }

  /**
   * A poll awaits its order read in a reachable state `s`, whose table holds
   * `rows`; it goes on after anything has run, with those rows if the read
   * succeeded, and without any if it failed.
   */
  ghost predicate ReadsOrders(s: System, p: nat, rows: seq<Order>, between: seq<Step>, resume: Step) {
    && Reachable(s) && Enabled(s, Scan(p, rows)) && LeavesRead(resume) && resume.p == p
    && Legal(FromRead(s, p, rows, resume), between)
    && Enabled(Exec(FromRead(s, p, rows, resume), between), resume)
  }

  ghost function FromRead(s: System, p: nat, rows: seq<Order>, resume: Step): System
    requires Enabled(s, Scan(p, rows))
  {
    if resume.OrdersDone? then Scanned(s, p, rows) else s
  }

  /** The orders returned are the real orders of the requisition, as the table held them. */
  ghost predicate Canonical(s: System, requisition: Id, orders: seq<Order>) {
    forall o :: o in orders <==>
      && o.orderId in s.tables.orders && s.tables.orders[o.orderId] == o
      && o.requisitionId == requisition && o.orderId !in s.minted
  }

  /**
   * Of every poll that gets past its order read, in any interleaving: if a real
   * order of its requisition was in the table, the poll returns exactly the
   * real orders if and only if its read succeeded and no delete of a synthetic
   * order it listed returned between the scan and the resumption.
   */
  lemma CanonicalExactly(s: System, p: nat, rows: seq<Order>, between: seq<Step>, resume: Step, rest: seq<Step>, snap: Snapshot)
    requires ReadsOrders(s, p, rows, between, resume) && AnyReal(s, Mine(s, p, rows))
    requires var s2 := Exec(FromRead(s, p, rows, resume), between);
             Legal(Apply(s2, resume), rest) && p in Exec(Apply(s2, resume), rest).pollers
             && Exec(Apply(s2, resume), rest).pollers[p] == Done(Some(snap))
    ensures Canonical(s, RequisitionOf(s.pollers[p].l), snap.orders) <==>
            && resume.OrdersDone?
            && forall o | o in Mine(s, p, rows) && o.orderId in s.minted :: !DeletedIn(Scanned(s, p, rows), between, o.orderId)
  {
    hide Apply, Enabled, Exec, Legal, Shown, DeletedIn, OrdersInHand, Mine, Scanned;
    var mine := Mine(s, p, rows);
    MineIsCurrent(s, p, rows);
    var r :| r in mine && r.orderId !in s.minted;
    if resume.OrdersFailed? {
      PollReturnsShown(Exec(s, between), resume, rest);
      assert r !in snap.orders;
    } else {
      assert ScansAndResumes(s, p, rows, between, resume);
      SyntheticShownExactlyWhenDeletedMeanwhile(s, p, rows, between, resume, rest, snap);
      if forall o | o in mine && o.orderId in s.minted :: !DeletedIn(Scanned(s, p, rows), between, o.orderId) {
        PollShowsRealOrders(s, p, rows, between, resume, rest, snap);
      }
    }
  }

  // ---------------------------------------------------------------- deleted for good

  /** The order is not in the table, and no put of it is on its way there. */
  ghost predicate Gone(s: System, id: Id) {
    id in s.minted && id !in s.tables.orders && id !in s.puts
  }

  lemma QuietKeepsGone(s: System, step: Step, id: Id)
    requires Enabled(s, step) && Gone(s, id) && !Resumes(step) && !step.PutDone?
    ensures Gone(Apply(s, step), id)
  {
  }

  lemma StepKeepsGone(s: System, step: Step, id: Id)
    requires Enabled(s, step) && Gone(s, id)
    ensures Gone(Apply(s, step), id)
  {
    hide Apply, Proceed, Diffs, PublisherLocal, PublisherAwards, OrdersInHand;
    if step.PutDone? {
      PutDoneTracks(s, step);
    } else if !Resumes(step) {
      QuietKeepsGone(s, step, id);
    } else if Diffs(s, step) {
      ResumeDiffs(s, step);
      ProceedTracks(s.(sh := Noted(s, step)), step.p, PublisherLocal(s, step), PublisherAwards(s, step), OrdersInHand(s, step),
                    step.visit, step.id, id);
    } else {
      ResumeWaits(s, step);
    }
  }

  lemma {:induction false} RunKeepsGone(s: System, steps: seq<Step>, id: Id)
    requires Legal(s, steps) && Gone(s, id)
    ensures Gone(Exec(s, steps), id)
  {
    hide Apply, Enabled, Gone;
    if steps != [] {
      RunKeepsGone(s, steps[..|steps| - 1], id);
      StepKeepsGone(Exec(s, steps[..|steps| - 1]), steps[|steps| - 1], id);
    }
  }

  /** Every delete `p` waits for comes back successful. */
  ghost predicate OwnDeletesSucceed(steps: seq<Step>, p: nat) {
    forall i | 0 <= i < |steps| && steps[i].DeleteDone? && steps[i].p == p :: steps[i].ok
  }

  /** The order is gone, or the poll still has its delete to do. */
  ghost predicate Clearing(s: System, p: nat, o: Order) {
    Gone(s, o.orderId) || (p in s.pollers && s.pollers[p].Deleting? && o in s.pollers[p].pending)
  }

  lemma DeleteClears(s: System, step: Step, o: Order)
    requires OrdersSafe(s) && Enabled(s, step) && step.DeleteDone? && step.ok && Clearing(s, step.p, o)
    ensures Clearing(Apply(s, step), step.p, o)
  {
    hide Apply, Proceed, CanChoose;
    var pending := s.pollers[step.p].pending;
    assert PcOrders(s, s.pollers[step.p]);
    if !Gone(s, o.orderId) && o != pending[0] {
      assert o in pending[1..];
      ResumeWaits(s, step);
    } else {
      assert Gone(s, o.orderId);
      StepKeepsGone(s, step, o.orderId);
    }
  }

  lemma StepClears(s: System, step: Step, p: nat, o: Order)
    requires OrdersSafe(s) && Enabled(s, step) && Clearing(s, p, o)
    requires step.DeleteDone? && step.p == p ==> step.ok
    ensures Clearing(Apply(s, step), p, o)
  {
    if Gone(s, o.orderId) {
      hide Apply, Enabled;
      StepKeepsGone(s, step, o.orderId);
    } else if NamesPoll(step) && step.p == p {
      hide Proceed, Finish;
      if step.DeleteDone? { DeleteClears(s, step, o); }
    } else if NamesPoll(step) {
      hide Apply, Enabled;
      StepMoves(s, step);
    } else {
      hide Apply, Enabled;
      OtherPollersStay(s, step);
    }
  }

  lemma {:induction false} RunClears(s: System, steps: seq<Step>, p: nat, o: Order)
    requires OrdersSafe(s) && Legal(s, steps) && OwnDeletesSucceed(steps, p) && Clearing(s, p, o)
    ensures Clearing(Exec(s, steps), p, o)
  {
    hide Apply, Enabled, Clearing, OrdersSafe;
    if steps != [] {
      var init := steps[..|steps| - 1];
      RunClears(s, init, p, o);
      RunOrdersSafe(s, init);
      StepClears(Exec(s, init), steps[|steps| - 1], p, o);
    }
  }

  /** Resuming with a real order in hand, the poll sets out to clear every synthetic one in hand. */
  lemma ResumeClears(s: System, resume: Step, o: Order)
    requires OrdersSafe(s) && Enabled(s, resume) && resume.OrdersDone?
    requires o in OrdersInHand(s, resume) && o.orderId in s.minted
    requires RealOrders(s.sh, OrdersInHand(s, resume)) != []
    ensures Clearing(Apply(s, resume), resume.p, o)
  {
    hide Apply, Proceed, CanChoose, OfRequisition;
    var mine := OrdersInHand(s, resume);
    PartitionMembers(mine, s.sh.syntheticOrders, true);
    if o.orderId in s.sh.syntheticOrders {
      assert o in SyntheticOrders(s.sh, mine);
      ResumeWaits(s, resume);
    } else {
      StepKeepsGone(s, resume, o.orderId);
    }
  }

  /**
   * In any interleaving: once a poll that listed a real order is done and its
   * own deletes succeeded, each synthetic order it listed is out of the table,
   * and after any further run neither that one nor any other synthetic order of
   * the same negotiation is in the table.
   */
  lemma PollClearsSyntheticForGood(s: System, p: nat, rows: seq<Order>, between: seq<Step>, resume: Step, rest: seq<Step>,
                                   later: seq<Step>, o: Order, id: Id)
    requires ScansAndResumes(s, p, rows, between, resume) && AnyReal(s, Mine(s, p, rows))
    requires var s2 := Exec(Scanned(s, p, rows), between);
             Legal(Apply(s2, resume), rest) && OwnDeletesSucceed(rest, p)
             && p in Exec(Apply(s2, resume), rest).pollers && Exec(Apply(s2, resume), rest).pollers[p].Done?
             && Legal(Exec(Apply(s2, resume), rest), later)
    requires o in Mine(s, p, rows) && o.orderId in s.minted
    requires var end := Exec(Exec(Apply(Exec(Scanned(s, p, rows), between), resume), rest), later);
             id in end.minted && end.minted[id] == s.minted[o.orderId]
    ensures var end := Exec(Exec(Apply(Exec(Scanned(s, p, rows), between), resume), rest), later);
      id == o.orderId && id !in end.tables.orders
  {
    hide Apply, Enabled, Exec, Legal, DeletedIn, OrdersInHand, Mine, Scanned, OwnDeletesSucceed, OrderTablesSafe, RealOrders;
    var s2 := Exec(Scanned(s, p, rows), between);
    ResumesWithListing(s, p, rows, between, resume);
    var s3 := Apply(s2, resume);
    var s4 := Exec(s3, rest);
    RealInHand(s, p, rows, between, resume);
    ResumeClears(s2, resume, o);
    StepOrdersSafe(s2, resume);
    RunClears(s3, rest, p, o);
    RunKeepsGone(s4, later, o.orderId);
    StepTracks(s2, resume, o.orderId);
    RunTracks(s3, rest, o.orderId);
    RunTracks(s4, later, o.orderId);
    RunOrdersSafe(s3, rest);
    RunOrdersSafe(s4, later);
  }

  lemma RealInHand(s: System, p: nat, rows: seq<Order>, between: seq<Step>, resume: Step)
    requires ScansAndResumes(s, p, rows, between, resume) && AnyReal(s, Mine(s, p, rows))
    ensures RealOrders(Exec(Scanned(s, p, rows), between).sh, Mine(s, p, rows)) != []
  {
    hide Apply, Enabled, Exec, Legal, Mine, Scanned, OrdersInHand;
    var s2, mine := Exec(Scanned(s, p, rows), between), Mine(s, p, rows);
    RealIsUntracked(s, p, rows, between, resume);
    var r :| r in mine && r.orderId !in s.minted;
    PartitionMembers(mine, s2.sh.syntheticOrders, false);
    assert r in RealOrders(s2.sh, mine);
  }

  // ---------------------------------------------------------------- afterwards, in any interleaving

  ghost predicate KeepsMinted(s: System, s': System) {
    && s.sh.syntheticNegotiations <= s'.sh.syntheticNegotiations
    && s.minted.Keys <= s'.minted.Keys
    && (forall id | id in s.minted :: s'.minted[id] == s.minted[id])
    && (forall id | id in s'.minted && id !in s.minted :: s'.minted[id] !in s.sh.syntheticNegotiations)
  }

  lemma StepKeepsMinted(s: System, step: Step)
    requires OrdersSafe(s) && Enabled(s, step)
    ensures KeepsMinted(s, Apply(s, step))
  {
    hide Diff, Finish;
    if step.FetchDone? {
      FetchMintsNothing(s, step);
      FetchTracking(s, step);
    } else if step.OrdersDone? || step.OrdersFailed? {
      var pc := s.pollers[step.p];
      WithOrdersKeepsMinted(s, step.p, pc.l, pc.awards, if step.OrdersDone? then pc.listing.value else [], step.visit, step.id);
    } else if step.DeleteDone? {
      DeleteKeepsMinted(s, step);
    } else if step.PutDone? {
      FinishKeepsTracking(s.sh, s.pollers[step.p].l, s.pollers[step.p].snapshot, []);
    }
  }

  lemma DeleteKeepsMinted(s: System, step: Step)
    requires Enabled(s, step) && step.DeleteDone?
    ensures KeepsMinted(s, Apply(s, step))
  {
    hide Proceed;
    var pc := s.pollers[step.p];
    var s1 := if step.ok then s.(sh := Discard(s.sh, pc.pending[0].orderId)) else s;
    NextDeleteKeepsMinted(s1, step.p, pc.l, pc.awards, pc.genuine, pc.pending[1..], step.visit, step.id);
  }

  lemma NextDeleteKeepsMinted(s: System, p: nat, l: Local, awards: seq<Award>, genuine: seq<Order>, pending: seq<Order>,
                              visit: seq<Id>, id: Id)
    requires FreshId(s, id)
    ensures KeepsMinted(s, NextDelete(s, p, l, awards, genuine, pending, visit, id))
  {
    hide Proceed;
    ProceedKeepsMinted(s, p, l, awards, genuine, visit, id);
  }

  lemma FetchTracking(s: System, step: Step)
    requires Enabled(s, step) && step.FetchDone?
    ensures s.sh.syntheticNegotiations <= Apply(s, step).sh.syntheticNegotiations
  {
    hide Proceed;
    var l := LocalOf(s.sh, s.pollers[step.p], step.names);
    ProceedKeepsMinted(s, step.p, l, [], [], step.visit, step.id);
  }

  lemma ProceedKeepsMinted(s: System, p: nat, l: Local, awards: seq<Award>, orders: seq<Order>, visit: seq<Id>, id: Id)
    requires FreshId(s, id)
    ensures KeepsMinted(s, Proceed(s, p, l, awards, orders, visit, id))
  {
    hide Proceed;
    ProceedOrders(s, p, l, awards, orders, visit, id);
  }

  lemma WithOrdersKeepsMinted(s: System, p: nat, l: Local, awards: seq<Award>, listing: seq<Order>, visit: seq<Id>, id: Id)
    requires FreshId(s, id)
    ensures KeepsMinted(s, WithOrders(s, p, l, awards, listing, visit, id))
  {
    hide Proceed;
    var mine := OfRequisition(listing, RequisitionOf(l));
    NextDeleteKeepsMinted(s, p, l, awards, RealOrders(s.sh, mine), SyntheticOrders(s.sh, mine), visit, id);
    ProceedKeepsMinted(s, p, l, awards, mine, visit, id);
  }

  lemma {:induction false} NeverMintedFrom(s: System, steps: seq<Step>, n: Id)
    requires OrdersSafe(s) && Legal(s, steps) && n in s.sh.syntheticNegotiations
    ensures n in Exec(s, steps).sh.syntheticNegotiations
    ensures s.minted.Keys <= Exec(s, steps).minted.Keys
    ensures forall id | id in Exec(s, steps).minted && Exec(s, steps).minted[id] == n :: id in s.minted
  {
    hide Apply, Enabled;
    if steps != [] {
      var init := steps[..|steps| - 1];
      NeverMintedFrom(s, init, n);
      RunOrdersSafe(s, init);
      StepKeepsMinted(Exec(s, init), steps[|steps| - 1]);
    }
  }

  /** Once a negotiation has had its synthetic order, no later step of any poll mints another. */
  lemma NeverMintedAgain(s: System, steps: seq<Step>, n: Id)
    requires Reachable(s) && Legal(s, steps) && n in s.sh.syntheticNegotiations
    ensures n in Exec(s, steps).sh.syntheticNegotiations
    ensures forall id | id in Exec(s, steps).minted && Exec(s, steps).minted[id] == n :: id in s.minted
  {
    ReachableOrdersSafe(s);
    NeverMintedFrom(s, steps, n);
  }

  /**
   * A synthetic order in the table (after a failed delete, say) is tracked; and
   * a poll that lists it with a real one sets out to delete it, whatever runs
   * in between, unless a delete of it has returned by then.
   */
  lemma FailedDeleteIsRetried(s: System, p: nat, rows: seq<Order>, between: seq<Step>, resume: Step, o: Order)
    requires ScansAndResumes(s, p, rows, between, resume) && AnyReal(s, Mine(s, p, rows))
    requires o in Mine(s, p, rows) && o.orderId in s.minted && !DeletedIn(Scanned(s, p, rows), between, o.orderId)
    ensures o.orderId in s.sh.syntheticOrders
    ensures var s3 := Apply(Exec(Scanned(s, p, rows), between), resume);
      && p in s3.pollers && s3.pollers[p].Deleting? && o in s3.pollers[p].pending
      && s3.pollers[p].pending[0].orderId in s3.deletes
  {
    hide Apply, Enabled, Exec, Legal, DeletedIn, Proceed, OfRequisition, Partition, Mine, Scanned, OrdersInHand, PublisherLocal;
    var s2 := Exec(Scanned(s, p, rows), between);
    ResumesWithListing(s, p, rows, between, resume);
    RealInHand(s, p, rows, between, resume);
    MineIsCurrent(s, p, rows);
    PartitionMembers(Mine(s, p, rows), s2.sh.syntheticOrders, true);
    assert o in SyntheticOrders(s2.sh, Mine(s, p, rows));
    ResumeWaits(s2, resume);
  }
}
