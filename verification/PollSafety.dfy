/**
 * Safety over every interleaving: each guarded event is published at most
 * once, and snapshots never show an unpublished id.
 */
module PollSafety {
  import opened Basics
  import opened OrderRows
  import opened EventBus
  import opened Projection
  import opened EventGuards
  import opened PollMachine

  // ---------------------------------------------------------------- the invariant

  ghost predicate LocalSafe(l: Local, p: Published) {
    CoveredWithOrders(l.prev, p) && (l.prev.negotiationId == l.n || l.prev == NO_SNAPSHOT)
  }

  ghost predicate PcSafe(pc: Pc, p: Published) {
    match pc
    case Fetching(_, _, _, _, _) => true
    case AwaitAwards(l, _) => LocalSafe(l, p)
    case AwaitOrders(l, _, _) => LocalSafe(l, p)
    case Deleting(l, _, _, _) => LocalSafe(l, p)
    case AwaitPut(l, snap, _) =>
      LocalSafe(l, p) && CoveredWithOrders(snap, p) && snap.orderIds == {} && snap.negotiationId == l.n
    case Done(result) => result.Some? ==> CoveredWithOrders(result.value, p)
  }

  ghost predicate StateSafe(sh: Shared) {
    forall n | n in sh.state :: sh.state[n].negotiationId == n && CoveredWithOrders(sh.state[n], sh.published)
  }

  ghost predicate Safe(s: System) {
    && GuardsMatch(s.sh)
    && StateSafe(s.sh)
    && forall p | p in s.pollers :: PcSafe(s.pollers[p], s.sh.published)
  }

  lemma PcSafeMonotone(pc: Pc, p: Published, q: Published)
    requires PcSafe(pc, p) && Grows(p, q)
    ensures PcSafe(pc, q)
  {
  }

  /** A loop step that leaves every other poll where it is keeps the invariant. */
  lemma SafeStep(s: System, sh: Shared, p: nat, pc: Pc, s': System)
    requires Safe(s) && s'.sh == sh && s'.pollers == s.pollers[p := pc]
    requires GuardsMatch(sh) && StateSafe(sh) && Grows(s.sh.published, sh.published) && PcSafe(pc, sh.published)
    ensures Safe(s')
  {
    forall q | q in s'.pollers ensures PcSafe(s'.pollers[q], sh.published) {
      if q != p { PcSafeMonotone(s.pollers[q], s.sh.published, sh.published); }
    }
  }

  lemma DiffEffect(sh: Shared, l: Local, awards: seq<Award>, orders: seq<Order>, visit: seq<Id>)
    ensures var d := Diff(sh, l, awards, orders, visit);
      && d.state == sh.state[l.n := BuildSnapshot(l, awards, orders)]
      && d.syntheticOrders == sh.syntheticOrders && d.syntheticNegotiations == sh.syntheticNegotiations
      && d.published.orders == sh.published.orders
  {
  }

  lemma FinishEffect(sh: Shared, l: Local, snap: Snapshot, orders: seq<Order>)
    ensures var f := Finish(sh, l, snap, orders);
      && f.state == sh.state[snap.negotiationId := snap.(orderIds := TruthyIds(orders, OrderKey))]
      && f.syntheticOrders == sh.syntheticOrders && f.syntheticNegotiations == sh.syntheticNegotiations
  {
  }

  lemma SavedStateSafe(sh: Shared, sh': Shared, snap: Snapshot)
    requires StateSafe(sh) && Grows(sh.published, sh'.published)
    requires sh'.state == sh.state[snap.negotiationId := snap] && CoveredWithOrders(snap, sh'.published)
    ensures StateSafe(sh')
  {
  }

  lemma FinishSafe(sh: Shared, l: Local, snap: Snapshot, orders: seq<Order>)
    requires GuardsMatch(sh) && LocalSafe(l, sh.published)
    requires Covered(snap, sh.published) && snap.orderIds == TruthyIds(orders, OrderKey)
    requires forall n | n in sh.state && n != snap.negotiationId ::
               sh.state[n].negotiationId == n && CoveredWithOrders(sh.state[n], sh.published)
    ensures var f := Finish(sh, l, snap, orders);
      GuardsMatch(f) && Grows(sh.published, f.published) && StateSafe(f) && CoveredWithOrders(snap, f.published)
  {
    FinishKeepsGuards(sh, l, snap, orders);
    FinishCovers(sh, l, snap, orders);
    FinishEffect(sh, l, snap, orders);
    assert snap == snap.(orderIds := TruthyIds(orders, OrderKey));
  }

  lemma DiffSafe(sh: Shared, l: Local, awards: seq<Award>, orders: seq<Order>, visit: seq<Id>)
    requires GuardsMatch(sh) && StateSafe(sh) && LocalSafe(l, sh.published) && Enumerates(visit, NewOffers(l))
    ensures var d, snap := Diff(sh, l, awards, orders, visit), BuildSnapshot(l, awards, orders);
      && GuardsMatch(d) && Grows(sh.published, d.published) && LocalSafe(l, d.published)
      && Covered(snap, d.published) && snap.negotiationId == l.n && snap.orderIds == TruthyIds(orders, OrderKey)
      && d.state == sh.state[l.n := snap]
  {
    DiffKeepsGuards(sh, l, awards, orders, visit);
    DiffCovers(sh, l, awards, orders, visit);
    DiffEffect(sh, l, awards, orders, visit);
    CoveredMonotone(l.prev, sh.published, Diff(sh, l, awards, orders, visit).published);
  }

  lemma ProceedSafe(s: System, p: nat, l: Local, awards: seq<Award>, orders: seq<Order>, visit: seq<Id>, id: Id)
    requires Safe(s) && LocalSafe(l, s.sh.published) && Enumerates(visit, NewOffers(l))
    ensures Safe(Proceed(s, p, l, awards, orders, visit, id))
    ensures Grows(s.sh.published, Proceed(s, p, l, awards, orders, visit, id).sh.published)
  {
    hide Diff, AfterDiff;
    DiffSafe(s.sh, l, awards, orders, visit);
    AfterDiffSafe(s, Diff(s.sh, l, awards, orders, visit), BuildSnapshot(l, awards, orders), p, l, awards, orders, id);
  }

  lemma AfterDiffSafe(s: System, sh1: Shared, snap: Snapshot, p: nat, l: Local, awards: seq<Award>, orders: seq<Order>, id: Id)
    requires Safe(s) && GuardsMatch(sh1) && Grows(s.sh.published, sh1.published) && LocalSafe(l, sh1.published)
    requires Covered(snap, sh1.published) && snap.negotiationId == l.n && snap.orderIds == TruthyIds(orders, OrderKey)
    requires sh1.state == s.sh.state[l.n := snap] && snap == BuildSnapshot(l, awards, orders)
    ensures Safe(AfterDiff(s, sh1, p, l, awards, orders, id))
    ensures Grows(s.sh.published, AfterDiff(s, sh1, p, l, awards, orders, id).sh.published)
  {
    hide Finish;
    var s' := AfterDiff(s, sh1, p, l, awards, orders, id);
    if WantsSyntheticOrder(sh1, l, awards, orders) {
      assert snap.orderIds == {} by { assert KeySet(orders, OrderKey) == {}; }
      SavedStateSafe(s.sh, sh1, snap);
      SafeStep(s, Mint(sh1, l.n, id), p, AwaitPut(l, snap, SyntheticOrder(id, l, awards)), s');
    } else {
      FinishSafe(sh1, l, snap, orders);
      SafeStep(s, Finish(sh1, l, snap, orders), p, Done(Some(snap)), s');
    }
  }

  lemma NextDeleteSafe(s: System, p: nat, l: Local, awards: seq<Award>, genuine: seq<Order>, pending: seq<Order>,
                       visit: seq<Id>, id: Id)
    requires Safe(s) && LocalSafe(l, s.sh.published) && Enumerates(visit, NewOffers(l))
    ensures Safe(NextDelete(s, p, l, awards, genuine, pending, visit, id))
    ensures Grows(s.sh.published, NextDelete(s, p, l, awards, genuine, pending, visit, id).sh.published)
  {
    hide Proceed;
    if pending == [] {
      ProceedSafe(s, p, l, awards, genuine, visit, id);
    } else {
      var s' := NextDelete(s, p, l, awards, genuine, pending, visit, id);
      SafeStep(s, s.sh, p, s'.pollers[p], s');
    }
  }

  lemma WithOrdersSafe(s: System, p: nat, l: Local, awards: seq<Award>, listing: seq<Order>, visit: seq<Id>, id: Id)
    requires Safe(s) && LocalSafe(l, s.sh.published) && Enumerates(visit, NewOffers(l))
    ensures Safe(WithOrders(s, p, l, awards, listing, visit, id))
    ensures Grows(s.sh.published, WithOrders(s, p, l, awards, listing, visit, id).sh.published)
  {
    hide Proceed;
    var mine := OfRequisition(listing, RequisitionOf(l));
    NextDeleteSafe(s, p, l, awards, RealOrders(s.sh, mine), SyntheticOrders(s.sh, mine), visit, id);
    ProceedSafe(s, p, l, awards, mine, visit, id);
  }

  lemma FetchSafe(s: System, p: nat, names: map<Id, string>, visit: seq<Id>, id: Id)
    requires Safe(s) && Enabled(s, FetchDone(p, names, visit, id))
    ensures Safe(Apply(s, FetchDone(p, names, visit, id)))
    ensures Grows(s.sh.published, Apply(s, FetchDone(p, names, visit, id)).sh.published)
  {
    hide Proceed;
    var pc := s.pollers[p];
    var l := LocalOf(s.sh, pc, names);
    assert LocalSafe(l, s.sh.published) by { assert KeySet<Communication>([], CommunicationKey) == {}; }
    ProceedSafe(s, p, l, [], [], visit, id);
    SafeStep(s, s.sh, p, Done(None), s.(pollers := s.pollers[p := Done(None)]));
    SafeStep(s, s.sh, p, AwaitAwards(l, None), s.(pollers := s.pollers[p := AwaitAwards(l, None)]));
  }

  lemma PutDoneSafe(s: System, p: nat)
    requires Safe(s) && Enabled(s, PutDone(p))
    ensures Safe(Apply(s, PutDone(p)))
    ensures Grows(s.sh.published, Apply(s, PutDone(p)).sh.published)
  {
    hide Finish;
    var pc := s.pollers[p];
    assert TruthyIds<Order>([], OrderKey) == {} by { assert KeySet<Order>([], OrderKey) == {}; }
    FinishSafe(s.sh, pc.l, pc.snapshot, []);
    var s' := Apply(s, PutDone(p));
    SafeStep(s, s'.sh, p, s'.pollers[p], s');
  }

  lemma DeleteDoneSafe(s: System, p: nat, ok: bool, visit: seq<Id>, id: Id)
    requires Safe(s) && Enabled(s, DeleteDone(p, ok, visit, id))
    ensures Safe(Apply(s, DeleteDone(p, ok, visit, id)))
    ensures Grows(s.sh.published, Apply(s, DeleteDone(p, ok, visit, id)).sh.published)
  {
    hide Proceed;
    var pc := s.pollers[p];
    var s1 := if ok then s.(sh := Discard(s.sh, pc.pending[0].orderId)) else s;
    NextDeleteSafe(s1, p, pc.l, pc.awards, pc.genuine, pc.pending[1..], visit, id);
  }

  lemma SubscriptionSafe(s: System, step: Step)
    requires Safe(s) && Enabled(s, step) && (step.Listen? || step.Leave?)
    ensures Safe(Apply(s, step))
  {
    assert Apply(s, step).sh.bus.log == s.sh.bus.log;
  }

  lemma StepSafe(s: System, step: Step)
    requires Safe(s) && Enabled(s, step)
    ensures Safe(Apply(s, step))
    ensures Grows(s.sh.published, Apply(s, step).sh.published)
  {
    hide Proceed, Finish;
    match step
    case FetchDone(p, names, visit, id) => FetchSafe(s, p, names, visit, id);
    case OrdersDone(p, visit, id) =>
      WithOrdersSafe(s, p, s.pollers[p].l, s.pollers[p].awards, s.pollers[p].listing.value, visit, id);
    case OrdersFailed(p, visit, id) => WithOrdersSafe(s, p, s.pollers[p].l, s.pollers[p].awards, [], visit, id);
    case DeleteDone(p, ok, visit, id) => DeleteDoneSafe(s, p, ok, visit, id);
    case PutDone(p) => PutDoneSafe(s, p);
    case Listen(n, q) => SubscriptionSafe(s, step);
    case Leave(n, q) => SubscriptionSafe(s, step);
    case Start(p, n) =>
    case Read(p) =>
    case Scan(p, rows) =>
    case FetchFailed(p) =>
    case AwardsDone(p) =>
    case AwardsFailed(p) =>
    case PutLands(id) =>
    case DeleteLands(id) =>
    case Environment(t) =>
  }

  lemma {:induction false} RunSafe(s: System, steps: seq<Step>)
    requires Safe(s) && Legal(s, steps)
    ensures Safe(Exec(s, steps))
    ensures Grows(s.sh.published, Exec(s, steps).sh.published)
  {
    if steps != [] {
      RunSafe(s, steps[..|steps| - 1]);
      StepSafe(Exec(s, steps[..|steps| - 1]), steps[|steps| - 1]);
    }
  }

  lemma StartSafe()
    ensures Safe(START)
  {
    forall k ensures !Marked(INITIAL.published, k) && !Logged(INITIAL.bus.log, k) {}
  }

  // ---------------------------------------------------------------- main results

  /**
   * In every interleaving the log never holds two events with the same key:
   * stored invitation, feedback, bid, award, order, or classified negotiation.
   */
  lemma EventsAtMostOnce(s: System)
    requires Reachable(s)
    ensures AtMostOnce(s.sh.bus.log)
    ensures forall k :: Logged(s.sh.bus.log, k) <==> Marked(s.sh.published, k)
  {
    var steps :| Legal(START, steps) && Exec(START, steps) == s;
    StartSafe();
    RunSafe(START, steps);
  }

  /**
   * Whatever snapshot was current at some point, or handed to a caller, every
   * id it shows is in the matching guard set from then on.
   */
  lemma SnapshotsStayCovered(a: seq<Step>, b: seq<Step>, snap: Snapshot)
    requires Legal(START, a + b) && Legal(START, a)
    requires var s := Exec(START, a);
             || (exists n | n in s.sh.state :: s.sh.state[n] == snap)
             || (exists p | p in s.pollers :: s.pollers[p] == Done(Some(snap)))
    ensures CoveredWithOrders(snap, Exec(START, a + b).sh.published)
  {
    StartSafe();
    RunSafe(START, a);
    ExecAppend(START, a, b);
    var s := Exec(START, a);
    RunSafe(s, b);
    if p :| p in s.pollers && s.pollers[p] == Done(Some(snap)) {
      assert PcSafe(s.pollers[p], s.sh.published);
    }
  }
}
