/**
 * A stream subscribes, then polls for a snapshot, then drains its queue.  As
 * long as tables only grow, every invitation, feedback, bid and award ever
 * published for the negotiation is in one of the two, with one exception: the
 * awards published earlier, when the snapshot's award read fails.
 */
module StreamNoGap {
  import opened Basics
  import opened OrderRows
  import opened EventBus
  import opened Projection
  import opened EventGuards
  import opened PollMachine
  import opened PollSafety
  import opened PollStreams

  // ---------------------------------------------------------------- growing tables

  ghost predicate RowsGrow<T>(a: map<Id, seq<T>>, b: map<Id, seq<T>>, key: T -> Id) {
    forall n :: KeySet(Lookup(a, n, []), key) <= KeySet(Lookup(b, n, []), key)
  }

  /** No row disappears, and a negotiation keeps its requisition. */
  ghost predicate TablesGrow(t: Tables, u: Tables) {
    && (forall n | n in t.negotiations ::
          n in u.negotiations && u.negotiations[n].requisitionId == t.negotiations[n].requisitionId)
    && RowsGrow(t.bids, u.bids, BidKey)
    && RowsGrow(t.invitations, u.invitations, CommunicationKey)
    && RowsGrow(t.feedback, u.feedback, CommunicationKey)
    && RowsGrow(t.awards, u.awards, AwardKey)
  }

  ghost predicate Growing(s: System, steps: seq<Step>)
    requires Legal(s, steps)
    decreases |steps|
  {
    steps == [] ||
    var init, last := steps[..|steps| - 1], steps[|steps| - 1];
    Growing(s, init) && (last.Environment? ==> TablesGrow(Exec(s, init).tables, last.tables))
  }

  lemma {:induction false} GrowingAppend(s: System, a: seq<Step>, b: seq<Step>)
    requires Legal(s, a + b) && Growing(s, a + b) && Legal(s, a) && Legal(Exec(s, a), b)
    ensures Growing(s, a) && Growing(Exec(s, a), b)
  {
    if b == [] {
      assert a + b == a;
    } else {
      var init := b[..|b| - 1];
      assert (a + b)[..|a + b| - 1] == a + init;
      GrowingAppend(s, a, init);
      ExecAppend(s, a, init);
    }
  }

  lemma {:induction false} RunGrows(s: System, steps: seq<Step>)
    requires Legal(s, steps) && Growing(s, steps)
    ensures TablesGrow(s.tables, Exec(s, steps).tables)
  {
    if steps != [] {
      RunGrows(s, steps[..|steps| - 1]);
      StepGrows(Exec(s, steps[..|steps| - 1]), steps[|steps| - 1]);
    }
  }

  lemma StepGrows(s: System, step: Step)
    requires Enabled(s, step) && (step.Environment? ==> TablesGrow(s.tables, step.tables))
    ensures TablesGrow(s.tables, Apply(s, step).tables)
  {
    hide Apply;
    if NamesPoll(step) {
      StepMoves(s, step);
    } else {
      OtherStepGrows(s, step);
    }
  }

  lemma OtherStepGrows(s: System, step: Step)
    requires Enabled(s, step) && !NamesPoll(step) && (step.Environment? ==> TablesGrow(s.tables, step.tables))
    ensures TablesGrow(s.tables, Apply(s, step).tables) && Apply(s, step).pollers == s.pollers
  {
    var t, u := s.tables, Apply(s, step).tables;
    if !step.Environment? {
      assert u.(orders := t.orders) == t;
    }
  }

  // ---------------------------------------------------------------- what was published is in the tables

  ghost predicate Has(t: Tables, n: Id, k: EventKey) {
    match k.kind
    case Rfq => k.id in KeySet(Lookup(t.invitations, n, []), CommunicationKey)
    case Feedback => k.id in KeySet(Lookup(t.feedback, n, []), CommunicationKey)
    case Offer => k.id in KeySet(Lookup(t.bids, n, []), BidKey)
    case AwardKind =>
      && n in t.negotiations && Truthy(t.negotiations[n].requisitionId)
      && k.id in KeySet(Lookup(t.awards, t.negotiations[n].requisitionId, []), AwardKey)
    case _ => true
  }

  ghost predicate InTables(t: Tables, e: Event) {
    KeyOf(e).Some? ==> Has(t, e.negotiationId, KeyOf(e).value)
  }

  ghost predicate LocalFrom(t: Tables, l: Local) {
    && KeySet(l.fetched.bids, BidKey) <= KeySet(Lookup(t.bids, l.n, []), BidKey)
    && KeySet(l.fetched.invitations, CommunicationKey) <= KeySet(Lookup(t.invitations, l.n, []), CommunicationKey)
    && KeySet(l.fetched.feedback, CommunicationKey) <= KeySet(Lookup(t.feedback, l.n, []), CommunicationKey)
    && (l.fetched.negotiation.Some? ==>
          l.n in t.negotiations && t.negotiations[l.n].requisitionId == RequisitionOf(l))
  }

  ghost predicate AwardsFrom(t: Tables, l: Local, awards: seq<Award>) {
    && KeySet(awards, AwardKey) <= KeySet(Lookup(t.awards, RequisitionOf(l), []), AwardKey)
    && (awards != [] ==> Truthy(RequisitionOf(l)))
  }

  ghost predicate PcFrom(t: Tables, pc: Pc) {
    match pc
    case Fetching(n, neg, bids, invs, fb) =>
      && (neg.Some? && neg.value.Some? ==>
            n in t.negotiations && t.negotiations[n].requisitionId == neg.value.value.requisitionId)
      && (bids.Some? ==> KeySet(bids.value, BidKey) <= KeySet(Lookup(t.bids, n, []), BidKey))
      && (invs.Some? ==> KeySet(invs.value, CommunicationKey) <= KeySet(Lookup(t.invitations, n, []), CommunicationKey))
      && (fb.Some? ==> KeySet(fb.value, CommunicationKey) <= KeySet(Lookup(t.feedback, n, []), CommunicationKey))
    case AwaitAwards(l, rows) => LocalFrom(t, l) && Truthy(RequisitionOf(l)) && (rows.Some? ==> AwardsFrom(t, l, rows.value))
    case AwaitOrders(l, awards, _) => LocalFrom(t, l) && AwardsFrom(t, l, awards)
    case Deleting(l, awards, _, _) => LocalFrom(t, l) && AwardsFrom(t, l, awards)
    case AwaitPut(l, _, _) => LocalFrom(t, l)
    case Done(_) => true
  }

  ghost predicate LogInTables(t: Tables, log: seq<Event>) {
    forall i | 0 <= i < |log| :: InTables(t, log[i])
  }

  ghost predicate Sourced(s: System) {
    LogInTables(s.tables, s.sh.bus.log) && forall p | p in s.pollers :: PcFrom(s.tables, s.pollers[p])
  }

  lemma HasMonotone(t: Tables, u: Tables, n: Id, k: EventKey)
    requires TablesGrow(t, u) && Has(t, n, k)
    ensures Has(u, n, k)
  {
  }

  lemma PcFromMonotone(t: Tables, u: Tables, pc: Pc)
    requires TablesGrow(t, u) && PcFrom(t, pc)
    ensures PcFrom(u, pc)
  {
  }

  lemma NamedKeys(l: Local)
    ensures KeySet(Named(l), BidKey) == KeySet(l.fetched.bids, BidKey)
  {
    var bids, named := l.fetched.bids, Named(l);
    assert forall i | 0 <= i < |bids| :: BidKey(named[i]) == BidKey(bids[i]);
    forall i | 0 <= i < |bids| ensures BidKey(bids[i]) in KeySet(named, BidKey) {
      assert BidKey(named[i]) == BidKey(bids[i]);
    }
    forall i | 0 <= i < |bids| ensures BidKey(named[i]) in KeySet(bids, BidKey) {
      assert BidKey(named[i]) == BidKey(bids[i]);
    }
  }

  lemma RowInKeySet<T>(rows: seq<T>, r: T, key: T -> Id)
    requires r in rows
    ensures key(r) in KeySet(rows, key)
  {
    var i :| 0 <= i < |rows| && rows[i] == r;
  }

  lemma FromRowsInTables(t: Tables, e: Event, l: Local, awards: seq<Award>, orders: seq<Order>)
    requires LocalFrom(t, l) && AwardsFrom(t, l, awards) && FromRows(e, l, awards, orders)
    ensures InTables(t, e)
  {
    match e
    case RfqSent(_, c, _) =>
      if c in l.fetched.invitations { RowInKeySet(l.fetched.invitations, c, CommunicationKey); }
    case AuctionRoundFeedback(_, c) => RowInKeySet(l.fetched.feedback, c, CommunicationKey);
    case OfferReceived(_, b) =>
      NamedKeys(l);
      RowInKeySet(Named(l), b, BidKey);
    case AwardIssued(_, a) => RowInKeySet(awards, a, AwardKey);
    case _ =>
  }

  lemma PublisherFrom(s: System, step: Step)
    requires Sourced(s) && Enabled(s, step)
    requires Publishes(step)
    ensures LocalFrom(s.tables, PublisherLocal(s, step)) && AwardsFrom(s.tables, PublisherLocal(s, step), PublisherAwards(s, step))
  {
    assert PcFrom(s.tables, s.pollers[step.p]);
    assert KeySet<Award>([], AwardKey) == {};
  }

  lemma StepLogInTables(s: System, step: Step)
    requires Sourced(s) && Enabled(s, step) && !step.Environment?
    ensures LogInTables(s.tables, Apply(s, step).sh.bus.log)
  {
    hide Diff, Finish;
    var b, b' := s.sh.bus, Apply(s, step).sh.bus;
    if Publishes(step) {
      var l, awards := PublisherLocal(s, step), PublisherAwards(s, step);
      StepAdds(s, step);
      PublisherFrom(s, step);
      AddsInTables(s.tables, b, b', l, awards, OrdersInHand(s, step));
    } else {
      assert b'.log == b.log;
    }
  }

  lemma AddsInTables(t: Tables, b: Bus, b': Bus, l: Local, awards: seq<Award>, orders: seq<Order>)
    requires LogInTables(t, b.log) && Adds(b, b', l, awards, orders) && LocalFrom(t, l) && AwardsFrom(t, l, awards)
    ensures LogInTables(t, b'.log)
  {
    var es :| AllFromRows(es, l, awards, orders) && b' == PublishAll(b, es);
    PublishAllFrame(b, es);
    forall i | 0 <= i < |es| ensures InTables(t, es[i]) { FromRowsInTables(t, es[i], l, awards, orders); }
  }

  lemma ProceedPcFrom(t: Tables, s: System, p: nat, l: Local, awards: seq<Award>, orders: seq<Order>,
                      visit: seq<Id>, id: Id)
    requires LocalFrom(t, l)
    ensures PcFrom(t, Proceed(s, p, l, awards, orders, visit, id).pollers[p])
  {
    hide Diff, Finish;
  }

  lemma NextDeletePcFrom(t: Tables, s: System, p: nat, l: Local, awards: seq<Award>, genuine: seq<Order>,
                         pending: seq<Order>, visit: seq<Id>, id: Id)
    requires LocalFrom(t, l) && AwardsFrom(t, l, awards)
    ensures PcFrom(t, NextDelete(s, p, l, awards, genuine, pending, visit, id).pollers[p])
  {
    hide Proceed;
    ProceedPcFrom(t, s, p, l, awards, genuine, visit, id);
  }

  lemma WithOrdersPcFrom(t: Tables, s: System, p: nat, l: Local, awards: seq<Award>, listing: seq<Order>,
                         visit: seq<Id>, id: Id)
    requires LocalFrom(t, l) && AwardsFrom(t, l, awards)
    ensures PcFrom(t, WithOrders(s, p, l, awards, listing, visit, id).pollers[p])
  {
    hide Proceed;
    var mine := OfRequisition(listing, RequisitionOf(l));
    NextDeletePcFrom(t, s, p, l, awards, RealOrders(s.sh, mine), SyntheticOrders(s.sh, mine), visit, id);
    ProceedPcFrom(t, s, p, l, awards, mine, visit, id);
  }

  lemma AfterFetchPcFrom(t: Tables, s: System, p: nat, pc: Pc, names: map<Id, string>, visit: seq<Id>, id: Id)
    requires FetchReady(pc) && LocalFrom(t, LocalOf(s.sh, pc, names))
    ensures var s' := AfterFetch(s, p, pc, names, visit, id); p in s'.pollers && PcFrom(t, s'.pollers[p])
  {
    hide Proceed;
    ProceedPcFrom(t, s, p, LocalOf(s.sh, pc, names), [], [], visit, id);
  }

  lemma FetchMovedFrom(s: System, step: Step)
    requires Sourced(s) && Enabled(s, step) && step.FetchDone?
    ensures step.p in Apply(s, step).pollers && PcFrom(s.tables, Apply(s, step).pollers[step.p])
  {
    hide AfterFetch, LocalFrom, PcFrom;
    PublisherFrom(s, step);
    AfterFetchPcFrom(s.tables, s, step.p, s.pollers[step.p], step.names, step.visit, step.id);
  }

  lemma ResumeMovedFrom(s: System, step: Step)
    requires Sourced(s) && Enabled(s, step) && (step.OrdersDone? || step.OrdersFailed?)
    ensures step.p in Apply(s, step).pollers && PcFrom(s.tables, Apply(s, step).pollers[step.p])
  {
    hide Proceed;
    StepMoves(s, step);
    PublisherFrom(s, step);
    var pc := s.pollers[step.p];
    WithOrdersPcFrom(s.tables, s, step.p, pc.l, pc.awards, if step.OrdersDone? then pc.listing.value else [],
                     step.visit, step.id);
  }

  lemma DeleteDoneMovedFrom(s: System, step: Step)
    requires Sourced(s) && Enabled(s, step) && step.DeleteDone?
    ensures step.p in Apply(s, step).pollers && PcFrom(s.tables, Apply(s, step).pollers[step.p])
  {
    hide Proceed;
    StepMoves(s, step);
    PublisherFrom(s, step);
    var pc := s.pollers[step.p];
    var s1 := if step.ok then s.(sh := Discard(s.sh, pc.pending[0].orderId)) else s;
    NextDeletePcFrom(s.tables, s1, step.p, pc.l, pc.awards, pc.genuine, pc.pending[1..], step.visit, step.id);
  }

  lemma MovedFrom(s: System, step: Step)
    requires Sourced(s) && Enabled(s, step) && NamesPoll(step)
    ensures step.p in Apply(s, step).pollers && PcFrom(s.tables, Apply(s, step).pollers[step.p])
  {
    hide Proceed;
    if step.FetchDone? {
      FetchMovedFrom(s, step);
    } else if step.OrdersDone? || step.OrdersFailed? {
      ResumeMovedFrom(s, step);
    } else if step.DeleteDone? {
      DeleteDoneMovedFrom(s, step);
    } else if !step.Start? {
      assert PcFrom(s.tables, s.pollers[step.p]);
      assert KeySet<Award>([], AwardKey) == {};
    }
  }

  lemma LogInTablesMonotone(t: Tables, u: Tables, log: seq<Event>)
    requires TablesGrow(t, u) && LogInTables(t, log)
    ensures LogInTables(u, log)
  {
    forall i | 0 <= i < |log| ensures InTables(u, log[i]) {
      if KeyOf(log[i]).Some? { HasMonotone(t, u, log[i].negotiationId, KeyOf(log[i]).value); }
    }
  }

  lemma PollersSourced(s: System, step: Step)
    requires Sourced(s) && Enabled(s, step) && (step.Environment? ==> TablesGrow(s.tables, step.tables))
    requires TablesGrow(s.tables, Apply(s, step).tables)
    ensures forall p | p in Apply(s, step).pollers :: PcFrom(Apply(s, step).tables, Apply(s, step).pollers[p])
  {
    hide Apply;
    var s' := Apply(s, step);
    if NamesPoll(step) {
      StepMoves(s, step);
      MovedFrom(s, step);
    } else {
      OtherStepGrows(s, step);
    }
    forall p | p in s'.pollers ensures PcFrom(s'.tables, s'.pollers[p]) {
      PcFromMonotone(s.tables, s'.tables, s'.pollers[p]);
    }
  }

  lemma StepSourced(s: System, step: Step)
    requires Sourced(s) && Enabled(s, step) && (step.Environment? ==> TablesGrow(s.tables, step.tables))
    ensures Sourced(Apply(s, step))
  {
    StepGrows(s, step);
    PollersSourced(s, step);
    if !step.Environment? { StepLogInTables(s, step); }
    LogInTablesMonotone(s.tables, Apply(s, step).tables, Apply(s, step).sh.bus.log);
  }

  lemma {:induction false} RunSourced(s: System, steps: seq<Step>)
    requires Sourced(s) && Legal(s, steps) && Growing(s, steps)
    ensures Sourced(Exec(s, steps))
  {
    if steps != [] {
      RunSourced(s, steps[..|steps| - 1]);
      StepSourced(Exec(s, steps[..|steps| - 1]), steps[|steps| - 1]);
    }
  }

  // ---------------------------------------------------------------- what a later poll reads

  /** A snapshot shows the row behind a key. */
  ghost predicate Shows(snap: Snapshot, k: EventKey) {
    match k.kind
    case Rfq => k.id in KeySet(snap.invitations, CommunicationKey)
    case Feedback => k.id in KeySet(snap.feedback, CommunicationKey)
    case Offer => k.id in KeySet(snap.bids, BidKey)
    case AwardKind => k.id in KeySet(snap.awards, AwardKey)
    case _ => false
  }

  predicate Streamed(k: EventKey) {
    k.kind == Rfq || k.kind == Feedback || k.kind == Offer || k.kind == AwardKind
  }

  /** Everything `t0` had for `n` is among the rows read so far. */
  ghost predicate LocalSees(t0: Tables, n: Id, l: Local) {
    && l.n == n
    && KeySet(Lookup(t0.bids, n, []), BidKey) <= KeySet(l.fetched.bids, BidKey)
    && KeySet(Lookup(t0.invitations, n, []), CommunicationKey) <= KeySet(l.fetched.invitations, CommunicationKey)
    && KeySet(Lookup(t0.feedback, n, []), CommunicationKey) <= KeySet(l.fetched.feedback, CommunicationKey)
    && (n in t0.negotiations ==> RequisitionOf(l) == t0.negotiations[n].requisitionId)
  }

  /** `lost` says that the award read failed: the poll then goes on without awards. */
  ghost predicate AwardsSee(t0: Tables, n: Id, awards: seq<Award>, lost: bool) {
    if lost then awards == [] else
      n in t0.negotiations && Truthy(t0.negotiations[n].requisitionId) ==>
        KeySet(Lookup(t0.awards, t0.negotiations[n].requisitionId, []), AwardKey) <= KeySet(awards, AwardKey)
  }

  ghost predicate SnapshotSees(t0: Tables, n: Id, snap: Snapshot, lost: bool) {
    && (lost ==> snap.awards == [])
    && forall k | Streamed(k) && Has(t0, n, k) && !(lost && k.kind == AwardKind) :: Shows(snap, k)
  }

  ghost predicate PcSees(t0: Tables, n: Id, pc: Pc, lost: bool) {
    match pc
    case Fetching(m, neg, bids, invs, fb) =>
      && m == n && !lost
      && (neg.Some? && n in t0.negotiations ==>
            neg.value.Some? && neg.value.value.requisitionId == t0.negotiations[n].requisitionId)
      && (bids.Some? ==> KeySet(Lookup(t0.bids, n, []), BidKey) <= KeySet(bids.value, BidKey))
      && (invs.Some? ==> KeySet(Lookup(t0.invitations, n, []), CommunicationKey) <= KeySet(invs.value, CommunicationKey))
      && (fb.Some? ==> KeySet(Lookup(t0.feedback, n, []), CommunicationKey) <= KeySet(fb.value, CommunicationKey))
    case AwaitAwards(l, rows) => !lost && LocalSees(t0, n, l) && (rows.Some? ==> AwardsSee(t0, n, rows.value, lost))
    case AwaitOrders(l, awards, _) => LocalSees(t0, n, l) && AwardsSee(t0, n, awards, lost)
    case Deleting(l, awards, _, _) => LocalSees(t0, n, l) && AwardsSee(t0, n, awards, lost)
    case AwaitPut(_, snap, _) => SnapshotSees(t0, n, snap, lost)
    case Done(result) => result.Some? ==> SnapshotSees(t0, n, result.value, lost)
  }

  lemma BuiltSnapshotSees(t0: Tables, n: Id, l: Local, awards: seq<Award>, orders: seq<Order>, lost: bool)
    requires LocalSees(t0, n, l) && AwardsSee(t0, n, awards, lost)
    ensures SnapshotSees(t0, n, BuildSnapshot(l, awards, orders), lost)
  {
    NamedKeys(l);
    KeySetAppend(l.fetched.invitations, Derived(l), CommunicationKey);
  }

  lemma ReadSees(t0: Tables, t: Tables, n: Id, pc: Pc, lost: bool)
    requires TablesGrow(t0, t) && PcSees(t0, n, pc, lost)
    ensures PcSees(t0, n, ReadNext(t, pc), lost)
  {
  }

  lemma ProceedSees(t0: Tables, n: Id, s: System, p: nat, l: Local, awards: seq<Award>, orders: seq<Order>,
                    visit: seq<Id>, id: Id, lost: bool)
    requires LocalSees(t0, n, l) && AwardsSee(t0, n, awards, lost)
    ensures PcSees(t0, n, Proceed(s, p, l, awards, orders, visit, id).pollers[p], lost)
  {
    hide Diff, Finish;
    BuiltSnapshotSees(t0, n, l, awards, orders, lost);
  }

  lemma NextDeleteSees(t0: Tables, n: Id, s: System, p: nat, l: Local, awards: seq<Award>, genuine: seq<Order>,
                       pending: seq<Order>, visit: seq<Id>, id: Id, lost: bool)
    requires LocalSees(t0, n, l) && AwardsSee(t0, n, awards, lost)
    ensures PcSees(t0, n, NextDelete(s, p, l, awards, genuine, pending, visit, id).pollers[p], lost)
  {
    hide Proceed;
    ProceedSees(t0, n, s, p, l, awards, genuine, visit, id, lost);
  }

  lemma WithOrdersSees(t0: Tables, n: Id, s: System, p: nat, l: Local, awards: seq<Award>, listing: seq<Order>,
                       visit: seq<Id>, id: Id, lost: bool)
    requires LocalSees(t0, n, l) && AwardsSee(t0, n, awards, lost)
    ensures PcSees(t0, n, WithOrders(s, p, l, awards, listing, visit, id).pollers[p], lost)
  {
    hide Proceed;
    var mine := OfRequisition(listing, RequisitionOf(l));
    NextDeleteSees(t0, n, s, p, l, awards, RealOrders(s.sh, mine), SyntheticOrders(s.sh, mine), visit, id, lost);
    ProceedSees(t0, n, s, p, l, awards, mine, visit, id, lost);
  }

  lemma FetchSees(t0: Tables, n: Id, s: System, step: Step, lost: bool)
    requires Enabled(s, step) && step.FetchDone? && PcSees(t0, n, s.pollers[step.p], lost)
    ensures PcSees(t0, n, Apply(s, step).pollers[step.p], lost)
  {
    hide Proceed;
    var l := LocalOf(s.sh, s.pollers[step.p], step.names);
    assert LocalSees(t0, n, l);
    if !Truthy(RequisitionOf(l)) {
      ProceedSees(t0, n, s, step.p, l, [], [], step.visit, step.id, lost);
    }
  }

  lemma PublisherSees(t0: Tables, n: Id, s: System, step: Step, lost: bool)
    requires Enabled(s, step) && Publishes(step) && PcSees(t0, n, s.pollers[step.p], lost)
    ensures step.p in Apply(s, step).pollers && PcSees(t0, n, Apply(s, step).pollers[step.p], lost)
  {
    hide Proceed;
    StepMoves(s, step);
    var p := step.p;
    var pc := s.pollers[p];
    if step.FetchDone? {
      FetchSees(t0, n, s, step, lost);
    } else if step.OrdersDone? {
      WithOrdersSees(t0, n, s, p, pc.l, pc.awards, pc.listing.value, step.visit, step.id, lost);
    } else if step.OrdersFailed? {
      WithOrdersSees(t0, n, s, p, pc.l, pc.awards, [], step.visit, step.id, lost);
    } else if step.DeleteDone? {
      var s1 := if step.ok then s.(sh := Discard(s.sh, pc.pending[0].orderId)) else s;
      NextDeleteSees(t0, n, s1, p, pc.l, pc.awards, pc.genuine, pc.pending[1..], step.visit, step.id, lost);
    }
  }

  lemma StepSees(t0: Tables, n: Id, s: System, step: Step, p: nat, lost: bool)
    requires TablesGrow(t0, s.tables) && Enabled(s, step) && p in s.pollers && PcSees(t0, n, s.pollers[p], lost)
    ensures p in Apply(s, step).pollers && PcSees(t0, n, Apply(s, step).pollers[p], lost || step == AwardsFailed(p))
  {
    hide CanChoose, AfterFetch, WithOrders, NextDelete, Finish;
    if NamesPoll(step) {
      StepMoves(s, step);
      if step.p == p && Publishes(step) {
        hide Apply;
        PublisherSees(t0, n, s, step, lost);
      } else if step.p == p && step.Read? {
        ReadSees(t0, s.tables, n, s.pollers[p], lost);
      }
    }
  }

  lemma {:induction false} RunSees(t0: Tables, n: Id, s: System, steps: seq<Step>, p: nat)
    requires TablesGrow(t0, s.tables) && Legal(s, steps) && Growing(s, steps)
    requires p in s.pollers && PcSees(t0, n, s.pollers[p], false)
    ensures p in Exec(s, steps).pollers && PcSees(t0, n, Exec(s, steps).pollers[p], AwardsFailed(p) in steps)
    ensures TablesGrow(t0, Exec(s, steps).tables)
  {
    hide Apply, Enabled, PcSees, TablesGrow;
    if steps != [] {
      var init, last := steps[..|steps| - 1], steps[|steps| - 1];
      RunSees(t0, n, s, init, p);
      assert steps == init + [last];
      StepSees(t0, n, Exec(s, init), last, p, AwardsFailed(p) in init);
      RunGrows(s, steps);
      GrowsTrans(t0, s.tables, Exec(s, steps).tables);
    }
  }

  lemma GrowsTrans(t: Tables, u: Tables, v: Tables)
    requires TablesGrow(t, u) && TablesGrow(u, v)
    ensures TablesGrow(t, v)
  {
  }

  // ---------------------------------------------------------------- main result

  lemma StartSourced()
    ensures Sourced(START)
  {
  }

  /** A client subscribes, then polls for its snapshot, then listens on. */
  ghost predicate Streams(before: seq<Step>, n: Id, q: nat, between: seq<Step>, p: nat, polling: seq<Step>, after: seq<Step>,
                          snap: Snapshot)
  {
    var upto := before + [Listen(n, q)] + between + [Start(p, n)] + polling;
    && Legal(START, upto + after) && Growing(START, upto + after)
    && Truthy(n) && NeverLeaves(between + [Start(p, n)] + polling + after, q)
    && Legal(START, upto) && p in Exec(START, upto).pollers && Exec(START, upto).pollers[p] == Done(Some(snap))
  }

  /** The client gets the event, by its snapshot or by its queue. */
  ghost predicate Reached(b: Bus, q: nat, snap: Snapshot, k: EventKey, i: nat)
    requires i < |b.log|
  {
    Shows(snap, k) || (q in b.queues && b.log[i] in b.queues[q])
  }

  /**
   * `q` subscribes after `before`; poll `p` starts after `between`, returns a
   * snapshot after `polling`; the stream then runs on for `after`.  Every
   * streamed key ever published for `n` is in the snapshot or on the queue,
   * save an award published before the subscription when the snapshot's award
   * read failed.
   */
  lemma StreamHasNoGap(before: seq<Step>, n: Id, q: nat, between: seq<Step>, p: nat, polling: seq<Step>, after: seq<Step>,
                       snap: Snapshot, k: EventKey, i: nat)
    requires Streams(before, n, q, between, p, polling, after, snap) && Legal(START, before) && Streamed(k)
    requires var b := Exec(START, before + [Listen(n, q)] + between + [Start(p, n)] + polling + after).sh.bus;
             i < |b.log| && b.log[i].negotiationId == n && KeyOf(b.log[i]) == Some(k)
    ensures var b := Exec(START, before + [Listen(n, q)] + between + [Start(p, n)] + polling + after).sh.bus;
      Reached(b, q, snap, k, i)
      || (k.kind == AwardKind && AwardsFailed(p) in polling && i < |Exec(START, before).sh.bus.log|)
  {
    hide Apply, Enabled, Exec, Legal, Growing;
    StreamParts(before, n, q, between, p, polling, after, snap);
    var listened := before + [Listen(n, q)];
    StartSourced();
    RunSourced(START, listened);
    PublishedIsSeen(Exec(START, listened), Exec(START, listened + between + [Start(p, n)] + polling + after).sh.bus, n, q, snap, k, i,
                    AwardsFailed(p) in polling);
  }

  /**
   * And that award is missed for certain: an award published for `n` fails to
   * reach the client if and only if the snapshot's award read failed and the
   * award was published before the subscription.
   */
  lemma AwardMissedExactly(before: seq<Step>, n: Id, q: nat, between: seq<Step>, p: nat, polling: seq<Step>, after: seq<Step>,
                           snap: Snapshot, k: EventKey, i: nat)
    requires Streams(before, n, q, between, p, polling, after, snap) && Legal(START, before) && k.kind == AwardKind
    requires var b := Exec(START, before + [Listen(n, q)] + between + [Start(p, n)] + polling + after).sh.bus;
             i < |b.log| && b.log[i].negotiationId == n && KeyOf(b.log[i]) == Some(k)
    ensures var b := Exec(START, before + [Listen(n, q)] + between + [Start(p, n)] + polling + after).sh.bus;
      !Reached(b, q, snap, k, i) <==> AwardsFailed(p) in polling && i < |Exec(START, before).sh.bus.log|
  {
    hide Apply, Enabled, Exec, Legal, Growing;
    StreamHasNoGap(before, n, q, between, p, polling, after, snap, k, i);
    StreamParts(before, n, q, between, p, polling, after, snap);
    var end := Exec(START, before + [Listen(n, q)] + between + [Start(p, n)] + polling + after);
    var listened := Exec(START, before + [Listen(n, q)]);
    assert Reachable(end);
    EventsAtMostOnce(end);
    if AwardsFailed(p) in polling && i < |listened.sh.bus.log| {
      NotOnQueue(end.sh.bus, |listened.sh.bus.log|, n, i);
    }
  }

  /** An event logged before a queue was opened is not on it, since its key does not recur. */
  lemma NotOnQueue(b: Bus, from: nat, n: Id, i: nat)
    requires AtMostOnce(b.log) && i < from <= |b.log| && KeyOf(b.log[i]).Some?
    ensures b.log[i] !in For(b.log[from..], n)
  {
    ForIsPart(b.log[from..], n);
    forall e | e in b.log[from..] ensures e != b.log[i] {
      var j :| 0 <= j < |b.log[from..]| && b.log[from..][j] == e;
      assert KeyOf(b.log[i]) != KeyOf(b.log[from + j]);
    }
  }

  lemma {:induction false} ForIsPart(es: seq<Event>, scope: Id)
    ensures forall e | e in For(es, scope) :: e in es
  {
    if es != [] {
      ForIsPart(es[..|es| - 1], scope);
      assert es == es[..|es| - 1] + [es[|es| - 1]];
    }
  }

  /** What the pieces of a streaming run give: the queue since the subscription, and what the snapshot shows. */
  lemma StreamParts(before: seq<Step>, n: Id, q: nat, between: seq<Step>, p: nat, polling: seq<Step>, after: seq<Step>, snap: Snapshot)
    requires Streams(before, n, q, between, p, polling, after, snap)
    ensures var listened := before + [Listen(n, q)];
      && Legal(START, before) && Legal(START, listened) && Growing(START, listened)
      && var s, b := Exec(START, listened), Exec(START, listened + between + [Start(p, n)] + polling + after).sh.bus;
         && s.sh.bus.log == Exec(START, before).sh.bus.log
         && s.sh.bus.log <= b.log && q in b.queues && b.queues[q] == For(b.log[|s.sh.bus.log|..], n)
         && SnapshotSees(s.tables, n, snap, AwardsFailed(p) in polling)
  {
    hide Apply, Enabled, SnapshotSees;
    var listened := before + [Listen(n, q)];
    var upto := listened + between + [Start(p, n)] + polling;
    var rest := between + [Start(p, n)] + polling + after;
    assert upto + after == listened + rest;
    ExecAppend(START, listened, rest);
    GrowingAppend(START, listened, rest);
    ExecAppend(START, upto, after);
    GrowingAppend(START, upto, after);
    SnapshotSeesSubscription(listened, between, n, p, polling, snap);
    QueueSince(before, n, q, rest);
    ListenLogsNothing(before, n, q);
  }

  lemma ListenLogsNothing(before: seq<Step>, n: Id, q: nat)
    requires Legal(START, before + [Listen(n, q)])
    ensures Legal(START, before)
    ensures Exec(START, before + [Listen(n, q)]).sh.bus.log == Exec(START, before).sh.bus.log
  {
    hide AfterFetch, WithOrders, NextDelete, Finish, CanChoose;
    assert (before + [Listen(n, q)])[..|before|] == before;
  }

  lemma PublishedIsSeen(s: System, b: Bus, n: Id, q: nat, snap: Snapshot, k: EventKey, i: nat, lost: bool)
    requires Sourced(s) && SnapshotSees(s.tables, n, snap, lost) && Streamed(k)
    requires s.sh.bus.log <= b.log && q in b.queues && b.queues[q] == For(b.log[|s.sh.bus.log|..], n)
    requires i < |b.log| && b.log[i].negotiationId == n && KeyOf(b.log[i]) == Some(k)
    ensures Reached(b, q, snap, k, i) || (k.kind == AwardKind && lost && i < |s.sh.bus.log|)
  {
    if i < |s.sh.bus.log| {
      assert InTables(s.tables, s.sh.bus.log[i]);
    } else {
      ForMember(b.log[|s.sh.bus.log|..], n, i - |s.sh.bus.log|);
    }
  }

  lemma QueueSince(before: seq<Step>, n: Id, q: nat, rest: seq<Step>)
    requires Legal(START, before + [Listen(n, q)] + rest) && Legal(START, before + [Listen(n, q)]) && NeverLeaves(rest, q)
    ensures var b1, b := Exec(START, before + [Listen(n, q)]).sh.bus, Exec(START, before + [Listen(n, q)] + rest).sh.bus;
      b1.log <= b.log && q in b.queues && b.queues[q] == For(b.log[|b1.log|..], n)
  {
    var listened := before + [Listen(n, q)];
    assert listened[..|before|] == before;
    ExecAppend(START, listened, rest);
    QueueIsViewOfLog(before, n, q, rest);
  }

  lemma SnapshotSeesSubscription(listened: seq<Step>, between: seq<Step>, n: Id, p: nat, polling: seq<Step>, snap: Snapshot)
    requires var upto := listened + between + [Start(p, n)] + polling;
             Legal(START, upto) && Growing(START, upto) && Legal(START, listened)
             && p in Exec(START, upto).pollers && Exec(START, upto).pollers[p] == Done(Some(snap))
    ensures SnapshotSees(Exec(START, listened).tables, n, snap, AwardsFailed(p) in polling)
  {
    var polled := listened + between;
    var started := polled + [Start(p, n)];
    ExecAppend(START, started, polling);
    GrowingAppend(START, started, polling);
    ExecAppend(START, polled, [Start(p, n)]);
    GrowingAppend(START, polled, [Start(p, n)]);
    assert started[..|polled|] == polled;
    ExecAppend(START, listened, between);
    GrowingAppend(START, listened, between);
    RunGrows(Exec(START, listened), between);
    RunSees(Exec(START, listened).tables, n, Exec(START, started), polling, p);
  }
}
