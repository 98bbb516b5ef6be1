/**
 * What subscribers see: every queue is a view of the log while it is
 * registered, and silent afterwards; and the status changes of a negotiation
 * form a chain.
 */
module PollStreams {
  import opened Basics
  import opened OrderRows
  import opened EventBus
  import opened Projection
  import opened EventGuards
  import opened StatusChain
  import opened PollMachine

  // ---------------------------------------------------------------- what a poll publishes

  /** What an event carries was read, or derived from what was read, by the poll that publishes it. */
  ghost predicate FromRows(e: Event, l: Local, awards: seq<Award>, orders: seq<Order>) {
    && e.negotiationId == l.n
    && match e
       case RfqSent(_, c, derived) => if derived then c in Derived(l) else c in l.fetched.invitations
       case AuctionRoundFeedback(_, c) => c in l.fetched.feedback
       case OfferReceived(_, b) => b in Named(l)
       case AwardIssued(_, a) => a in awards
       case PoIssued(_, o) => o in orders
       case ClassificationDefined(_, quadrant, strategy) =>
         l.fetched.negotiation.Some? && quadrant == l.fetched.negotiation.value.quadrant
         && strategy == l.fetched.negotiation.value.strategy
       case StatusChange(_, status, _) => Truthy(status) && status == CurrentStatus(l)
  }

  ghost predicate AllFromRows(es: seq<Event>, l: Local, awards: seq<Award>, orders: seq<Order>) {
    forall i | 0 <= i < |es| :: FromRows(es[i], l, awards, orders)
  }

  ghost predicate Adds(b: Bus, b': Bus, l: Local, awards: seq<Award>, orders: seq<Order>) {
    exists es | AllFromRows(es, l, awards, orders) :: b' == PublishAll(b, es)
  }

  lemma {:induction false} PublishAllTwice(b: Bus, a: seq<Event>, c: seq<Event>)
    ensures PublishAll(PublishAll(b, a), c) == PublishAll(b, a + c)
  {
    if c == [] {
      assert a + c == a;
    } else {
      PublishAllTwice(b, a, c[..|c| - 1]);
      assert (a + c)[..|a + c| - 1] == a + c[..|c| - 1];
    }
  }

  lemma AddsNothing(b: Bus, l: Local, awards: seq<Award>, orders: seq<Order>)
    ensures Adds(b, b, l, awards, orders)
  {
    assert AllFromRows([], l, awards, orders) && b == PublishAll(b, []);
  }

  lemma AddsEvents(b: Bus, es: seq<Event>, l: Local, awards: seq<Award>, orders: seq<Order>)
    requires AllFromRows(es, l, awards, orders)
    ensures Adds(b, PublishAll(b, es), l, awards, orders)
  {
  }

  lemma AllFromAppend(a: seq<Event>, c: seq<Event>, l: Local, awards: seq<Award>, orders: seq<Order>)
    requires AllFromRows(a, l, awards, orders) && AllFromRows(c, l, awards, orders)
    ensures AllFromRows(a + c, l, awards, orders)
  {
  }

  lemma AddsTrans(b: Bus, b1: Bus, b2: Bus, l: Local, awards: seq<Award>, orders: seq<Order>)
    requires Adds(b, b1, l, awards, orders) && Adds(b1, b2, l, awards, orders)
    ensures Adds(b, b2, l, awards, orders)
  {
    var first :| AllFromRows(first, l, awards, orders) && b1 == PublishAll(b, first);
    var second :| AllFromRows(second, l, awards, orders) && b2 == PublishAll(b1, second);
    PublishAllTwice(b, first, second);
    AllFromAppend(first, second, l, awards, orders);
  }

  lemma FreshIsFromRows<T>(rows: seq<T>, key: T -> Id, wanted: set<Id>, published: set<Id>)
    ensures forall i | 0 <= i < |Fresh(rows, key, wanted, published)| :: Fresh(rows, key, wanted, published)[i] in rows
  {
    FreshExact(rows, key, wanted, published);
    assert forall i | 0 <= i < |Fresh(rows, key, wanted, published)| ::
        Fresh(rows, key, wanted, published)[i] in Fresh(rows, key, wanted, published);
  }

  lemma InvitationsAdd(sh: Shared, l: Local, awards: seq<Award>, orders: seq<Order>)
    ensures Adds(sh.bus, PublishInvitations(sh, l).bus, l, awards, orders)
  {
    var rows := l.fetched.invitations;
    FreshIsFromRows(rows, CommunicationKey,
                    TruthyIds(rows, CommunicationKey) - TruthyIds(l.prev.invitations, CommunicationKey), sh.published.invites);
    AddsEvents(sh.bus, RfqEvents(l.n, FreshInvitations(sh, l)), l, awards, orders);
  }

  lemma FeedbackAdds(sh: Shared, l: Local, awards: seq<Award>, orders: seq<Order>)
    ensures Adds(sh.bus, PublishFeedback(sh, l).bus, l, awards, orders)
  {
    var rows := l.fetched.feedback;
    FreshIsFromRows(rows, CommunicationKey,
                    TruthyIds(rows, CommunicationKey) - TruthyIds(l.prev.feedback, CommunicationKey), sh.published.feedback);
    AddsEvents(sh.bus, FeedbackEvents(l.n, FreshFeedback(sh, l)), l, awards, orders);
  }

  lemma DerivedAdds(sh: Shared, l: Local, awards: seq<Award>, orders: seq<Order>)
    ensures Adds(sh.bus, PublishDerived(sh, l).bus, l, awards, orders)
  {
    UnseenSubset(Derived(l), TruthyIds(l.prev.invitations, CommunicationKey));
    assert forall i | 0 <= i < |FreshDerived(l)| :: FreshDerived(l)[i] in FreshDerived(l);
    AddsEvents(sh.bus, DerivedEvents(l.n, FreshDerived(l)), l, awards, orders);
  }

  lemma ClassificationAdds(sh: Shared, l: Local, awards: seq<Award>, orders: seq<Order>)
    ensures Adds(sh.bus, PublishClassification(sh, l).bus, l, awards, orders)
  {
    AddsNothing(sh.bus, l, awards, orders);
    if DefinesClassification(sh, l) {
      var neg := l.fetched.negotiation.value;
      AddsEvents(sh.bus, [ClassificationDefined(l.n, neg.quadrant, neg.strategy)], l, awards, orders);
    }
  }

  lemma OffersAdd(sh: Shared, l: Local, awards: seq<Award>, orders: seq<Order>, visit: seq<Id>)
    requires Enumerates(visit, NewOffers(l))
    ensures Adds(sh.bus, PublishOffers(sh, l, visit).bus, l, awards, orders)
  {
    NewOffersArePriced(l);
    PricedIdsAreBids(Named(l));
    BidsInOrderKeys(visit, Named(l));
    FreshIsFromRows(BidsInOrder(visit, Named(l)), BidKey, NewOffers(l), sh.published.offers);
    AddsEvents(sh.bus, OfferEvents(l.n, FreshOffers(sh, l, visit)), l, awards, orders);
  }

  lemma AwardsAdd(sh: Shared, l: Local, awards: seq<Award>, orders: seq<Order>)
    ensures Adds(sh.bus, PublishAwards(sh, l, awards).bus, l, awards, orders)
  {
    FreshIsFromRows(awards, AwardKey, TruthyIds(awards, AwardKey) - l.prev.awardIds, sh.published.awards);
    AddsEvents(sh.bus, AwardEvents(l.n, FreshAwards(sh, l, awards)), l, awards, orders);
  }

  lemma DiffAdds(sh: Shared, l: Local, awards: seq<Award>, orders: seq<Order>, visit: seq<Id>)
    requires Enumerates(visit, NewOffers(l))
    ensures Adds(sh.bus, Diff(sh, l, awards, orders, visit).bus, l, awards, orders)
  {
    var s1 := PublishInvitations(sh, l);
    InvitationsAdd(sh, l, awards, orders);
    var s2 := PublishFeedback(s1, l);
    FeedbackAdds(s1, l, awards, orders);
    AddsTrans(sh.bus, s1.bus, s2.bus, l, awards, orders);
    var s3 := PublishDerived(s2, l);
    DerivedAdds(s2, l, awards, orders);
    AddsTrans(sh.bus, s2.bus, s3.bus, l, awards, orders);
    var s4 := Save(s3, BuildSnapshot(l, awards, orders));
    var s5 := PublishClassification(s4, l);
    ClassificationAdds(s4, l, awards, orders);
    AddsTrans(sh.bus, s3.bus, s5.bus, l, awards, orders);
    var s6 := PublishOffers(s5, l, visit);
    OffersAdd(s5, l, awards, orders, visit);
    AddsTrans(sh.bus, s5.bus, s6.bus, l, awards, orders);
    AwardsAdd(s6, l, awards, orders);
    AddsTrans(sh.bus, s6.bus, PublishAwards(s6, l, awards).bus, l, awards, orders);
  }

  lemma FinishAdds(sh: Shared, l: Local, snap: Snapshot, orders: seq<Order>, awards: seq<Award>)
    ensures Adds(sh.bus, Finish(sh, l, snap, orders).bus, l, awards, orders)
  {
    var s1 := PublishOrders(sh, l, orders);
    FreshIsFromRows(orders, OrderKey, TruthyIds(orders, OrderKey) - l.prev.orderIds, sh.published.orders);
    AddsEvents(sh.bus, PoEvents(l.n, FreshOrders(sh, l, orders)), l, awards, orders);
    var s2 := PublishStatus(s1, l);
    AddsNothing(s1.bus, l, awards, orders);
    if Truthy(CurrentStatus(l)) {
      AddsEvents(s1.bus, [StatusChange(l.n, CurrentStatus(l), LastStatus(s1.published, l.n))], l, awards, orders);
    }
    AddsTrans(sh.bus, s1.bus, s2.bus, l, awards, orders);
  }

  lemma ProceedAdds(s: System, p: nat, l: Local, awards: seq<Award>, orders: seq<Order>, visit: seq<Id>, id: Id)
    requires Enumerates(visit, NewOffers(l))
    ensures Adds(s.sh.bus, Proceed(s, p, l, awards, orders, visit, id).sh.bus, l, awards, orders)
  {
    hide Diff, Finish;
    var sh1 := Diff(s.sh, l, awards, orders, visit);
    DiffAdds(s.sh, l, awards, orders, visit);
    FinishAdds(sh1, l, BuildSnapshot(l, awards, orders), orders, awards);
    AddsTrans(s.sh.bus, sh1.bus, Finish(sh1, l, BuildSnapshot(l, awards, orders), orders).bus, l, awards, orders);
  }

  lemma NextDeleteAdds(s: System, p: nat, l: Local, awards: seq<Award>, genuine: seq<Order>, pending: seq<Order>,
                       visit: seq<Id>, id: Id)
    requires Enumerates(visit, NewOffers(l))
    ensures Adds(s.sh.bus, NextDelete(s, p, l, awards, genuine, pending, visit, id).sh.bus, l, awards, genuine)
  {
    hide Proceed;
    ProceedAdds(s, p, l, awards, genuine, visit, id);
    AddsNothing(s.sh.bus, l, awards, genuine);
  }

  lemma WithOrdersAdds(s: System, p: nat, l: Local, awards: seq<Award>, listing: seq<Order>, visit: seq<Id>, id: Id)
    requires Enumerates(visit, NewOffers(l))
    ensures Adds(s.sh.bus, WithOrders(s, p, l, awards, listing, visit, id).sh.bus, l, awards,
                 OfRequisition(listing, RequisitionOf(l)))
  {
    hide Proceed;
    var mine := OfRequisition(listing, RequisitionOf(l));
    AddsNothing(s.sh.bus, l, awards, mine);
    ProceedAdds(s, p, l, awards, mine, visit, id);
  }

  /** The rows the publishing poll of a step holds. */
  ghost function PublisherLocal(s: System, step: Step): Local
    requires Enabled(s, step)
  {
    match step
    case FetchDone(p, names, _, _) => LocalOf(s.sh, s.pollers[p], names)
    case OrdersDone(p, _, _) => s.pollers[p].l
    case OrdersFailed(p, _, _) => s.pollers[p].l
    case DeleteDone(p, _, _, _) => s.pollers[p].l
    case PutDone(p) => s.pollers[p].l
    case _ => Local("", Fetched(None, [], [], [], map[]), NO_SNAPSHOT)
  }

  ghost function PublisherAwards(s: System, step: Step): seq<Award>
    requires Enabled(s, step)
  {
    match step
    case OrdersDone(p, _, _) => s.pollers[p].awards
    case OrdersFailed(p, _, _) => s.pollers[p].awards
    case DeleteDone(p, _, _, _) => s.pollers[p].awards
    case _ => []
  }

  /** The orders it goes on with. */
  ghost function OrdersInHand(s: System, step: Step): seq<Order>
    requires Enabled(s, step)
  {
    match step
    case OrdersDone(p, _, _) => OfRequisition(s.pollers[p].listing.value, RequisitionOf(s.pollers[p].l))
    case DeleteDone(p, _, _, _) => s.pollers[p].genuine
    case _ => []
  }

  lemma StepAdds(s: System, step: Step)
    requires Enabled(s, step) && !step.Listen? && !step.Leave?
    ensures Adds(s.sh.bus, Apply(s, step).sh.bus, PublisherLocal(s, step), PublisherAwards(s, step), OrdersInHand(s, step))
  {
    hide Proceed, Finish;
    var l, awards := PublisherLocal(s, step), PublisherAwards(s, step);
    AddsNothing(s.sh.bus, l, awards, OrdersInHand(s, step));
    match step
    case FetchDone(p, names, visit, id) => ProceedAdds(s, p, l, [], [], visit, id);
    case OrdersDone(p, visit, id) => WithOrdersAdds(s, p, l, awards, s.pollers[p].listing.value, visit, id);
    case OrdersFailed(p, visit, id) => WithOrdersAdds(s, p, l, awards, [], visit, id);
    case DeleteDone(p, ok, visit, id) =>
      var pc := s.pollers[p];
      var s1 := if ok then s.(sh := Discard(s.sh, pc.pending[0].orderId)) else s;
      NextDeleteAdds(s1, p, l, awards, pc.genuine, pc.pending[1..], visit, id);
    case PutDone(p) => FinishAdds(s.sh, l, s.pollers[p].snapshot, [], awards);
    case _ =>
  }

  // ---------------------------------------------------------------- queues are views of the log

  lemma StepBus(s: System, step: Step)
    requires BusValid(s.sh.bus) && Enabled(s, step)
    ensures BusValid(Apply(s, step).sh.bus) && s.sh.bus.log <= Apply(s, step).sh.bus.log
  {
    hide CanChoose, AfterFetch, WithOrders, NextDelete, Finish;
    if step.Listen? {
      SubscribeKeepsValid(s.sh.bus, step.n, step.q);
    } else if step.Leave? {
      UnsubscribeFrame(s.sh.bus, step.n, step.q);
    } else {
      hide Apply, Enabled;
      StepAdds(s, step);
      var es :| Apply(s, step).sh.bus == PublishAll(s.sh.bus, es);
      PublishAllFrame(s.sh.bus, es);
    }
  }

  lemma AddsFollows(b: Bus, b': Bus, l: Local, awards: seq<Award>, orders: seq<Order>, scope: Id, q: nat)
    requires BusValid(b) && Listens(b, scope, q) && Adds(b, b', l, awards, orders)
    ensures Listens(b', scope, q) && Follows(b, b', scope, q)
  {
    var es :| AllFromRows(es, l, awards, orders) && b' == PublishAll(b, es);
    PublishAllFollows(b, es, scope, q);
    PublishAllView(b, es, scope, q);
  }

  lemma StepFollows(s: System, step: Step, scope: Id, q: nat)
    requires BusValid(s.sh.bus) && Enabled(s, step) && Listens(s.sh.bus, scope, q)
    requires !(step.Leave? && step.q == q)
    ensures Listens(Apply(s, step).sh.bus, scope, q) && Follows(s.sh.bus, Apply(s, step).sh.bus, scope, q)
  {
    var b := s.sh.bus;
    if step.Listen? {
      SubscribeKeepsValid(b, step.n, step.q);
      StillFollows(b, Subscribe(b, step.n, step.q), scope, q);
    } else if step.Leave? {
      UnsubscribeFrame(b, step.n, step.q);
      StillFollows(b, Unsubscribe(b, step.n, step.q), scope, q);
    } else {
      StepAdds(s, step);
      AddsFollows(b, Apply(s, step).sh.bus, PublisherLocal(s, step), PublisherAwards(s, step), OrdersInHand(s, step), scope, q);
    }
  }

  lemma StillFollows(b: Bus, b': Bus, scope: Id, q: nat)
    requires q in b.queues && q in b'.queues && b.queues[q] == b'.queues[q] && b.log == b'.log
    ensures Follows(b, b', scope, q)
  {
    assert b'.log[|b.log|..] == [];
    assert b.queues[q] + [] == b.queues[q];
  }

  ghost predicate NeverLeaves(steps: seq<Step>, q: nat) {
    forall i | 0 <= i < |steps| :: !(steps[i].Leave? && steps[i].q == q)
  }

  lemma {:induction false} RunBus(s: System, steps: seq<Step>)
    requires BusValid(s.sh.bus) && Legal(s, steps)
    ensures BusValid(Exec(s, steps).sh.bus)
  {
    if steps != [] {
      RunBus(s, steps[..|steps| - 1]);
      StepBus(Exec(s, steps[..|steps| - 1]), steps[|steps| - 1]);
    }
  }

  lemma {:induction false} RunFollows(s: System, steps: seq<Step>, scope: Id, q: nat)
    requires BusValid(s.sh.bus) && Legal(s, steps) && Listens(s.sh.bus, scope, q) && NeverLeaves(steps, q)
    ensures Listens(Exec(s, steps).sh.bus, scope, q) && Follows(s.sh.bus, Exec(s, steps).sh.bus, scope, q)
  {
    if steps == [] {
      StillFollows(s.sh.bus, s.sh.bus, scope, q);
    } else {
      var init := steps[..|steps| - 1];
      RunFollows(s, init, scope, q);
      RunBus(s, init);
      StepFollows(Exec(s, init), steps[|steps| - 1], scope, q);
      FollowsTrans(s.sh.bus, Exec(s, init).sh.bus, Exec(s, steps).sh.bus, scope, q);
    }
  }

  /**
   * From subscription on, a queue holds the log entries of its scope since
   * then, in order and once each, whatever the other polls and listeners do.
   */
  lemma QueueIsViewOfLog(before: seq<Step>, n: Id, q: nat, after: seq<Step>)
    requires Legal(START, before) && Enabled(Exec(START, before), Listen(n, q))
    requires Legal(Apply(Exec(START, before), Listen(n, q)), after) && NeverLeaves(after, q)
    ensures var b, b' := Exec(START, before).sh.bus, Exec(Apply(Exec(START, before), Listen(n, q)), after).sh.bus;
      && b.log <= b'.log
      && q in b'.queues && b'.queues[q] == For(b'.log[|b.log|..], n)
  {
    RunBus(START, before);
    var s := Exec(START, before);
    SubscribeKeepsValid(s.sh.bus, n, q);
    RunFollows(Apply(s, Listen(n, q)), after, n, q);
  }

  /** Leaving with one queue changes neither what any other queue holds nor what it listens to. */
  lemma LeavingIsPrivate(before: seq<Step>, n: Id, q: nat)
    requires Legal(START, before)
    ensures var b, b' := Exec(START, before).sh.bus, Apply(Exec(START, before), Leave(n, q)).sh.bus;
      && b'.queues == b.queues && b'.log == b.log
      && (forall m, r | r != q :: Listens(b', m, r) <==> Listens(b, m, r))
      && (Listens(b, n, q) ==> forall m :: !Listens(b', m, q))
  {
    RunBus(START, before);
    UnsubscribeFrame(Exec(START, before).sh.bus, n, q);
  }

  lemma StepStaysSilent(s: System, step: Step, q: nat)
    requires BusValid(s.sh.bus) && Enabled(s, step) && Silent(s.sh.bus, q)
    ensures Silent(Apply(s, step).sh.bus, q) && Apply(s, step).sh.bus.queues[q] == s.sh.bus.queues[q]
  {
    hide CanChoose, AfterFetch, WithOrders, NextDelete, Finish;
    var b := s.sh.bus;
    if step.Listen? {
      SubscribeKeepsValid(b, step.n, step.q);
      forall scope ensures !Listens(Subscribe(b, step.n, step.q), scope, q) { assert !Listens(b, scope, q); }
    } else if step.Leave? {
      UnsubscribeFrame(b, step.n, step.q);
      forall scope ensures !Listens(Unsubscribe(b, step.n, step.q), scope, q) { assert !Listens(b, scope, q); }
    } else {
      hide Apply;
      StepAdds(s, step);
      var es :| Apply(s, step).sh.bus == PublishAll(b, es);
      PublishAllSilent(b, es, q);
    }
  }

  lemma {:induction false} RunStaysSilent(s: System, steps: seq<Step>, q: nat)
    requires BusValid(s.sh.bus) && Legal(s, steps) && Silent(s.sh.bus, q)
    ensures Silent(Exec(s, steps).sh.bus, q) && Exec(s, steps).sh.bus.queues[q] == s.sh.bus.queues[q]
  {
    hide Apply, Enabled, Silent;
    if steps != [] {
      RunStaysSilent(s, steps[..|steps| - 1], q);
      RunBus(s, steps[..|steps| - 1]);
      StepStaysSilent(Exec(s, steps[..|steps| - 1]), steps[|steps| - 1], q);
      SilentHasQueue(Exec(s, steps).sh.bus, q);
    }
    SilentHasQueue(s.sh.bus, q);
  }

  lemma SilentHasQueue(b: Bus, q: nat)
    requires Silent(b, q)
    ensures q in b.queues
  {
  }

  /** Once a queue has left its scope, nothing is ever put on it again. */
  lemma LeftQueueGetsNothing(before: seq<Step>, n: Id, q: nat, after: seq<Step>)
    requires Legal(START, before) && Listens(Exec(START, before).sh.bus, n, q)
    requires Legal(Apply(Exec(START, before), Leave(n, q)), after)
    ensures var b, b' := Exec(START, before).sh.bus, Exec(Apply(Exec(START, before), Leave(n, q)), after).sh.bus;
      q in b.queues && q in b'.queues && b'.queues[q] == b.queues[q]
  {
    hide CanChoose, AfterFetch, WithOrders, NextDelete, Finish;
    RunBus(START, before);
    var s := Exec(START, before);
    UnsubscribeFrame(s.sh.bus, n, q);
    RunStaysSilent(Apply(s, Leave(n, q)), after, q);
  }

  // ---------------------------------------------------------------- status chains

  lemma ProceedKeepsChain(s: System, p: nat, l: Local, awards: seq<Award>, orders: seq<Order>, visit: seq<Id>, id: Id, n: Id)
    requires StatusesMatch(s.sh, n)
    ensures StatusesMatch(Proceed(s, p, l, awards, orders, visit, id).sh, n)
  {
    hide Diff, Finish;
    DiffKeepsChain(s.sh, l, awards, orders, visit, n);
    FinishKeepsChain(Diff(s.sh, l, awards, orders, visit), l, BuildSnapshot(l, awards, orders), orders, n);
  }

  lemma NextDeleteKeepsChain(s: System, p: nat, l: Local, awards: seq<Award>, genuine: seq<Order>, pending: seq<Order>,
                             visit: seq<Id>, id: Id, n: Id)
    requires StatusesMatch(s.sh, n)
    ensures StatusesMatch(NextDelete(s, p, l, awards, genuine, pending, visit, id).sh, n)
  {
    hide Proceed;
    ProceedKeepsChain(s, p, l, awards, genuine, visit, id, n);
  }

  lemma WithOrdersKeepsChain(s: System, p: nat, l: Local, awards: seq<Award>, listing: seq<Order>, visit: seq<Id>, id: Id, n: Id)
    requires StatusesMatch(s.sh, n)
    ensures StatusesMatch(WithOrders(s, p, l, awards, listing, visit, id).sh, n)
  {
    hide Proceed;
    var mine := OfRequisition(listing, RequisitionOf(l));
    NextDeleteKeepsChain(s, p, l, awards, RealOrders(s.sh, mine), SyntheticOrders(s.sh, mine), visit, id, n);
    ProceedKeepsChain(s, p, l, awards, mine, visit, id, n);
  }

  lemma ResumeKeepsChain(s: System, step: Step, n: Id)
    requires StatusesMatch(s.sh, n) && Enabled(s, step)
    requires step.FetchDone? || step.OrdersDone? || step.OrdersFailed?
    ensures StatusesMatch(Apply(s, step).sh, n)
  {
    hide Proceed;
    match step
    case FetchDone(p, names, visit, id) =>
      ProceedKeepsChain(s, p, LocalOf(s.sh, s.pollers[p], names), [], [], visit, id, n);
    case OrdersDone(p, visit, id) =>
      WithOrdersKeepsChain(s, p, s.pollers[p].l, s.pollers[p].awards, s.pollers[p].listing.value, visit, id, n);
    case OrdersFailed(p, visit, id) =>
      WithOrdersKeepsChain(s, p, s.pollers[p].l, s.pollers[p].awards, [], visit, id, n);
  }

  lemma DeleteDoneKeepsChain(s: System, step: Step, n: Id)
    requires StatusesMatch(s.sh, n) && Enabled(s, step) && step.DeleteDone?
    ensures StatusesMatch(Apply(s, step).sh, n)
  {
    hide Proceed;
    var pc := s.pollers[step.p];
    var s1 := if step.ok then s.(sh := Discard(s.sh, pc.pending[0].orderId)) else s;
    NextDeleteKeepsChain(s1, step.p, pc.l, pc.awards, pc.genuine, pc.pending[1..], step.visit, step.id, n);
  }

  lemma StepKeepsChain(s: System, step: Step, n: Id)
    requires StatusesMatch(s.sh, n) && Enabled(s, step)
    ensures StatusesMatch(Apply(s, step).sh, n)
  {
    hide Proceed, Finish;
    if step.FetchDone? || step.OrdersDone? || step.OrdersFailed? {
      ResumeKeepsChain(s, step, n);
    } else if step.DeleteDone? {
      DeleteDoneKeepsChain(s, step, n);
    } else if step.PutDone? {
      FinishKeepsChain(s.sh, s.pollers[step.p].l, s.pollers[step.p].snapshot, [], n);
    } else {
      assert Apply(s, step).sh.bus.log == s.sh.bus.log;
    }
  }

  lemma {:induction false} RunKeepsChain(s: System, steps: seq<Step>, n: Id)
    requires StatusesMatch(s.sh, n) && Legal(s, steps)
    ensures StatusesMatch(Exec(s, steps).sh, n)
  {
    if steps != [] {
      RunKeepsChain(s, steps[..|steps| - 1], n);
      StepKeepsChain(Exec(s, steps[..|steps| - 1]), steps[|steps| - 1], n);
    }
  }

  /**
   * In every interleaving the status changes of a negotiation chain, and spell
   * the statuses finished polls saw with immediate repeats dropped.
   */
  lemma StatusChangesChain(s: System, n: Id)
    requires Reachable(s)
    ensures Chained(Changes(s.sh.bus.log, n))
    ensures Spells(Changes(s.sh.bus.log, n), Compress(StatusesSeen(s.sh.processed, n)))
  {
    var steps :| Legal(START, steps) && Exec(START, steps) == s;
    RunKeepsChain(START, steps, n);
  }
}
