/**
 * The projection as the program keeps it: module-level fields that each poll
 * updates between two suspension points.  Every method is one publish block or
 * one uninterrupted segment, and its contract equates the new state with the
 * matching function of the old one; `Resume...` are the machine's loop steps.
 */
module OfferProjectionService {
  import opened Basics
  import opened OrderRows
  import opened EventBus
  import opened Projection
  import opened EventGuards
  import opened PollMachine

  lemma PublishSingle(b: Bus, e: Event)
    ensures PublishAll(b, [e]) == EventBus.Publish(b, e)
  {
    PublishOneMore(b, [], e);
    assert [] + [e] == [e];
  }

  lemma PublishOneMore(b: Bus, es: seq<Event>, e: Event)
    ensures PublishAll(b, es + [e]) == EventBus.Publish(PublishAll(b, es), e)
  {
    assert (es + [e])[..|es|] == es;
  }

  /** One more row through an id-guarded loop. */
  lemma GuardedStep<T>(rows: seq<T>, i: nat, key: T -> Id, wanted: set<Id>, published: set<Id>, done: seq<T>)
    requires i < |rows| && done == Fresh(rows[..i], key, wanted, published)
    ensures key(rows[i]) in wanted && key(rows[i]) !in published + KeySet(done, key) ==>
              Fresh(rows[..i + 1], key, wanted, published) == done + [rows[i]]
    ensures !(key(rows[i]) in wanted && key(rows[i]) !in published + KeySet(done, key)) ==>
              Fresh(rows[..i + 1], key, wanted, published) == done
    ensures KeySet(done + [rows[i]], key) == KeySet(done, key) + {key(rows[i])}
  {
    assert rows[..i + 1][..i] == rows[..i];
    KeySetAppend(done, [rows[i]], key);
    assert KeySet([rows[i]], key) == {key(rows[i])} by { assert key([rows[i]][0]) in KeySet([rows[i]], key); }
  }

  lemma GuardedLoop<T>(rows: seq<T>, key: T -> Id, wanted: set<Id>, published: set<Id>)
    ensures Fresh(rows[..0], key, wanted, published) == [] && KeySet<T>([], key) == {}
    ensures wanted == {} ==> Fresh(rows, key, wanted, published) == []
    ensures rows[..|rows|] == rows
  {
    FreshNothing(rows, key, published);
  }

  lemma {:induction false} FreshNothing<T>(rows: seq<T>, key: T -> Id, published: set<Id>)
    ensures Fresh(rows, key, {}, published) == []
  {
    if rows != [] { FreshNothing(rows[..|rows| - 1], key, published); }
  }

  lemma NoEvents(b: Bus)
    ensures PublishAll(b, []) == b
  {
  }

  class OfferProjection {
    var state: map<Id, Snapshot>
    var subscribers: map<Id, seq<nat>>
    var globalSubscribers: seq<nat>
    var queues: map<nat, seq<Event>>
    var publishedStatuses: map<Id, string>
    var publishedAwards: set<Id>
    var publishedOrders: set<Id>
    var publishedOffers: set<Id>
    var publishedInvites: set<Id>
    var publishedFeedback: set<Id>
    var publishedClassifications: set<Id>
    var syntheticOrderIds: set<Id>
    var syntheticNegotiationIds: set<Id>
    ghost var log: seq<Event>
    ghost var processed: seq<(Id, string)>

    ghost function BusView(): Bus
      reads this
    {
      Bus(subscribers, globalSubscribers, queues, log)
    }

    ghost function View(): Shared
      reads this
    {
      Shared(state,
             Published(publishedStatuses, publishedAwards, publishedOrders, publishedOffers, publishedInvites,
                       publishedFeedback, publishedClassifications),
             syntheticOrderIds, syntheticNegotiationIds, BusView(), processed)
    }

    constructor ()
      ensures View() == INITIAL
    {
      state, subscribers, globalSubscribers, queues := map[], map[], [], map[];
      publishedStatuses, publishedAwards, publishedOrders, publishedOffers := map[], {}, {}, {};
      publishedInvites, publishedFeedback, publishedClassifications := {}, {}, {};
      syntheticOrderIds, syntheticNegotiationIds := {}, {};
      log, processed := [], [];
    }

    // -------------------------------------------------------------- subscribers

    method Subscribe(n: Id, q: nat)
      requires q !in queues
      modifies this
      ensures View() == old(View()).(bus := EventBus.Subscribe(old(BusView()), n, q))
    {
      queues := queues[q := []];
      if Truthy(n) {
        subscribers := subscribers[n := Lookup(subscribers, n, []) + [q]];
      } else {
        globalSubscribers := globalSubscribers + [q];
      }
    }

    method Unsubscribe(n: Id, q: nat)
      modifies this
      ensures View() == old(View()).(bus := EventBus.Unsubscribe(old(BusView()), n, q))
    {
      if Truthy(n) && n in subscribers {
        subscribers := subscribers[n := Without(subscribers[n], q)];
      } else {
        globalSubscribers := Without(globalSubscribers, q);
      }
    }

    method Publish(e: Event)
      modifies `queues, `log
      ensures BusView() == EventBus.Publish(old(BusView()), e)
    {
      var targets := Lookup(subscribers, e.negotiationId, []) + globalSubscribers;
      for i := 0 to |targets|
        invariant queues == PutAll(old(queues), targets[..i], e) && log == old(log)
      {
        assert targets[..i + 1][..i] == targets[..i];
        queues := queues[targets[i] := Lookup(queues, targets[i], []) + [e]];
      }
      assert targets[..|targets|] == targets;
      log := log + [e];
    }

    // -------------------------------------------------------------- publish blocks

    method PublishInvitations(l: Local)
      modifies `publishedInvites, `queues, `log
      ensures View() == Projection.PublishInvitations(old(View()), l)
    {
      hide Fresh, KeySet, TruthyIds, PublishAll, EventBus.Publish, RfqEvents;
      var rows := l.fetched.invitations;
      var wanted := TruthyIds(rows, CommunicationKey) - TruthyIds(l.prev.invitations, CommunicationKey);
      ghost var published, bus, done := publishedInvites, BusView(), [];
      GuardedLoop(rows, CommunicationKey, wanted, published);
      NoEvents(bus);
      if wanted != {} {
        for i := 0 to |rows|
          invariant done == Fresh(rows[..i], CommunicationKey, wanted, published)
          invariant publishedInvites == published + KeySet(done, CommunicationKey)
          invariant BusView() == PublishAll(bus, RfqEvents(l.n, done))
        {
          var invite := rows[i];
          GuardedStep(rows, i, CommunicationKey, wanted, published, done);
          if invite.communicationId in wanted && invite.communicationId !in publishedInvites {
            publishedInvites := publishedInvites + {invite.communicationId};
            Publish(RfqSent(l.n, invite, false));
            PublishOneMore(bus, RfqEvents(l.n, done), RfqSent(l.n, invite, false));
            assert RfqEvents(l.n, done + [invite]) == RfqEvents(l.n, done) + [RfqSent(l.n, invite, false)];
            done := done + [invite];
          }
        }
      }
    }

    method PublishFeedback(l: Local)
      modifies `publishedFeedback, `queues, `log
      ensures View() == Projection.PublishFeedback(old(View()), l)
    {
      hide Fresh, KeySet, TruthyIds, PublishAll, EventBus.Publish, FeedbackEvents;
      var rows := l.fetched.feedback;
      var wanted := TruthyIds(rows, CommunicationKey) - TruthyIds(l.prev.feedback, CommunicationKey);
      ghost var published, bus, done := publishedFeedback, BusView(), [];
      GuardedLoop(rows, CommunicationKey, wanted, published);
      NoEvents(bus);
      if wanted != {} {
        for i := 0 to |rows|
          invariant done == Fresh(rows[..i], CommunicationKey, wanted, published)
          invariant publishedFeedback == published + KeySet(done, CommunicationKey)
          invariant BusView() == PublishAll(bus, FeedbackEvents(l.n, done))
        {
          var f := rows[i];
          GuardedStep(rows, i, CommunicationKey, wanted, published, done);
          if f.communicationId in wanted && f.communicationId !in publishedFeedback {
            publishedFeedback := publishedFeedback + {f.communicationId};
            Publish(AuctionRoundFeedback(l.n, f));
            PublishOneMore(bus, FeedbackEvents(l.n, done), AuctionRoundFeedback(l.n, f));
            assert FeedbackEvents(l.n, done + [f]) == FeedbackEvents(l.n, done) + [AuctionRoundFeedback(l.n, f)];
            done := done + [f];
          }
        }
      }
    }

    /** The bid rows are rewritten in place, one after the other. */
    method NameBids(l: Local) returns (bids: seq<Bid>)
      ensures bids == Named(l)
    {
      bids := l.fetched.bids;
      for i := 0 to |bids|
        invariant |bids| == |l.fetched.bids|
        invariant forall j | 0 <= j < |bids| ::
                    bids[j] == if j < i then WithSupplierName(l.fetched.bids[j], l.fetched.names) else l.fetched.bids[j]
      {
        bids := bids[i := WithSupplierName(bids[i], l.fetched.names)];
      }
    }

    /** Invitations are derived, appended and announced in one pass over the bids. */
    method DeriveInvitations(l: Local, bids: seq<Bid>) returns (invitations: seq<Communication>)
      requires bids == Named(l)
      modifies `queues, `log
      ensures View() == PublishDerived(old(View()), l)
      ensures invitations == l.fetched.invitations + Derived(l)
    {
      hide KeySet, TruthyIds, PublishAll, EventBus.Publish, DerivedEvents, Unseen, AutoInvitations, AutoInvitation;
      NothingDerived(l, bids);
      NoEvents(BusView());
      invitations := l.fetched.invitations;
      var listed := TruthyIds(l.prev.invitations, CommunicationKey);
      ghost var bus, derived := BusView(), [];
      if invitations == [] && bids != [] {
        var seen := {};
        for i := 0 to |bids|
          invariant derived == AutoInvitations(bids[..i], l.fetched.names) && invitations == derived
          invariant seen == KeySet(derived, SupplierKey)
          invariant BusView() == PublishAll(bus, DerivedEvents(l.n, Unseen(derived, listed)))
        {
          var b := bids[i];
          OneMoreDerivation(bids, i, l.fetched.names);
          if Truthy(b.supplierId) && b.supplierId !in seen {
            seen := seen + {b.supplierId};
            var invite := AutoInvitation(b, l.fetched.names);
            OneMoreDerived(derived, invite, listed);
            ghost var sent := Unseen(derived, listed);
            if invite.communicationId !in listed {
              Publish(RfqSent(l.n, invite, true));
              PublishOneMore(bus, DerivedEvents(l.n, sent), RfqSent(l.n, invite, true));
              assert DerivedEvents(l.n, sent + [invite]) == DerivedEvents(l.n, sent) + [RfqSent(l.n, invite, true)];
            }
            derived := derived + [invite];
            invitations := invitations + [invite];
          }
        }
        assert bids[..|bids|] == bids;
      }
    }

    method PublishClassification(l: Local)
      modifies `publishedClassifications, `queues, `log
      ensures View() == Projection.PublishClassification(old(View()), l)
    {
      hide PublishAll, EventBus.Publish;
      if l.fetched.negotiation.Some? {
        var neg := l.fetched.negotiation.value;
        if l.n !in publishedClassifications
           && ((Truthy(neg.quadrant) && neg.quadrant != l.prev.quadrant)
               || (Truthy(neg.strategy) && neg.strategy != l.prev.strategy))
        {
          publishedClassifications := publishedClassifications + {l.n};
          PublishSingle(BusView(), ClassificationDefined(l.n, neg.quadrant, neg.strategy));
          Publish(ClassificationDefined(l.n, neg.quadrant, neg.strategy));
        }
      }
    }

    /** The new ids form a set, visited in whatever order the runtime yields them. */
    method PublishOffers(l: Local, bids: seq<Bid>) returns (ghost visit: seq<Id>)
      requires bids == Named(l)
      modifies `publishedOffers, `queues, `log
      ensures Enumerates(visit, NewOffers(l))
      ensures View() == Projection.PublishOffers(old(View()), l, visit)
    {
      hide Fresh, KeySet, PublishAll, EventBus.Publish, OfferEvents, BidsInOrder, FirstBid, NewlyPriced;
      hide Elements, NoDuplicates;
      var wanted := NewlyPriced(bids, l.prev.bids);
      var remaining := wanted;
      ghost var published, bus := publishedOffers, BusView();
      ghost var done: seq<Bid> := [];
      visit := [];
      NoVisit(bids);
      GuardedLoop(BidsInOrder(visit, bids), BidKey, wanted, published);
      NoEvents(bus);
      while remaining != {}
        invariant NoDuplicates(visit) && Elements(visit) !! remaining && Elements(visit) + remaining == wanted
        invariant done == Fresh(BidsInOrder(visit, bids), BidKey, wanted, published)
        invariant publishedOffers == published + KeySet(done, BidKey)
        invariant BusView() == PublishAll(bus, OfferEvents(l.n, done))
      {
        var id :| id in remaining;
        OneMoreVisit(visit, remaining, id, wanted);
        OneMoreOffer(visit, id, bids, wanted, published, done);
        if id !in publishedOffers {
          var found := FirstBid(bids, id);
          if found.Some? {
            var bid := found.value;
            publishedOffers := publishedOffers + {id};
            Publish(OfferReceived(l.n, bid));
            PublishOneMore(bus, OfferEvents(l.n, done), OfferReceived(l.n, bid));
            assert OfferEvents(l.n, done + [bid]) == OfferEvents(l.n, done) + [OfferReceived(l.n, bid)];
            done := done + [bid];
          }
        }
        remaining := remaining - {id};
        visit := visit + [id];
      }
    }

    method PublishAwards(l: Local, rows: seq<Award>)
      modifies `publishedAwards, `queues, `log
      ensures View() == Projection.PublishAwards(old(View()), l, rows)
    {
      hide Fresh, KeySet, TruthyIds, PublishAll, EventBus.Publish, AwardEvents;
      var wanted := TruthyIds(rows, AwardKey) - l.prev.awardIds;
      ghost var published, bus, done := publishedAwards, BusView(), [];
      GuardedLoop(rows, AwardKey, wanted, published);
      NoEvents(bus);
      if wanted != {} {
        for i := 0 to |rows|
          invariant done == Fresh(rows[..i], AwardKey, wanted, published)
          invariant publishedAwards == published + KeySet(done, AwardKey)
          invariant BusView() == PublishAll(bus, AwardEvents(l.n, done))
        {
          var a := rows[i];
          GuardedStep(rows, i, AwardKey, wanted, published, done);
          if a.awardId in wanted && a.awardId !in publishedAwards {
            publishedAwards := publishedAwards + {a.awardId};
            Publish(AwardIssued(l.n, a));
            PublishOneMore(bus, AwardEvents(l.n, done), AwardIssued(l.n, a));
            assert AwardEvents(l.n, done + [a]) == AwardEvents(l.n, done) + [AwardIssued(l.n, a)];
            done := done + [a];
          }
        }
      }
    }

    method PublishOrders(l: Local, rows: seq<Order>)
      modifies `publishedOrders, `queues, `log
      ensures View() == Projection.PublishOrders(old(View()), l, rows)
    {
      hide Fresh, KeySet, TruthyIds, PublishAll, EventBus.Publish, PoEvents;
      var wanted := TruthyIds(rows, OrderKey) - l.prev.orderIds;
      ghost var published, bus, done := publishedOrders, BusView(), [];
      GuardedLoop(rows, OrderKey, wanted, published);
      NoEvents(bus);
      if wanted != {} {
        for i := 0 to |rows|
          invariant done == Fresh(rows[..i], OrderKey, wanted, published)
          invariant publishedOrders == published + KeySet(done, OrderKey)
          invariant BusView() == PublishAll(bus, PoEvents(l.n, done))
        {
          var o := rows[i];
          GuardedStep(rows, i, OrderKey, wanted, published, done);
          if o.orderId in wanted && o.orderId !in publishedOrders {
            publishedOrders := publishedOrders + {o.orderId};
            Publish(PoIssued(l.n, o));
            PublishOneMore(bus, PoEvents(l.n, done), PoIssued(l.n, o));
            assert PoEvents(l.n, done + [o]) == PoEvents(l.n, done) + [PoIssued(l.n, o)];
            done := done + [o];
          }
        }
      }
    }

    method PublishStatus(l: Local)
      modifies `publishedStatuses, `queues, `log, `processed
      ensures View() == Projection.PublishStatus(old(View()), l)
    {
      hide PublishAll, EventBus.Publish;
      var cur := if l.fetched.negotiation.Some? then l.fetched.negotiation.value.status else "";
      if Truthy(cur) {
        processed := processed + [(l.n, cur)];
        var prev := if l.n in publishedStatuses then Some(publishedStatuses[l.n]) else None;
        if prev != Some(cur) {
          publishedStatuses := publishedStatuses[l.n := cur];
          PublishSingle(BusView(), StatusChange(l.n, cur, prev));
          Publish(StatusChange(l.n, cur, prev));
        }
      }
    }

    // -------------------------------------------------------------- segments between suspension points

    method SaveSnapshot(l: Local, bids: seq<Bid>, invitations: seq<Communication>, awards: seq<Award>, orders: seq<Order>)
      returns (snap: Snapshot)
      requires bids == Named(l) && invitations == l.fetched.invitations + Derived(l)
      modifies `state
      ensures snap == BuildSnapshot(l, awards, orders) && View() == Save(old(View()), snap)
    {
      hide Derived, NamedBids, TruthyIds;
      var neg := if l.fetched.negotiation.Some? then l.fetched.negotiation.value else Negotiation("", "", "", "");
      snap := Snapshot(l.n, neg.requisitionId, neg.status, neg.quadrant, neg.strategy, invitations, l.fetched.feedback,
                       bids, awards, orders, TruthyIds(awards, AwardKey), TruthyIds(orders, OrderKey));
      state := state[l.n := snap];
    }

    method Diff(l: Local, awards: seq<Award>, orders: seq<Order>) returns (snap: Snapshot, ghost visit: seq<Id>)
      modifies this
      ensures Enumerates(visit, NewOffers(l)) && snap == BuildSnapshot(l, awards, orders)
      ensures View() == Projection.Diff(old(View()), l, awards, orders, visit)
    {
      hide Projection.PublishInvitations, Projection.PublishFeedback, PublishDerived, Projection.PublishClassification;
      hide Projection.PublishOffers, Projection.PublishAwards, BuildSnapshot, Derived, NewOffers, Enumerates;
      PublishInvitations(l);
      PublishFeedback(l);
      var bids := NameBids(l);
      var invitations := DeriveInvitations(l, bids);
      snap := SaveSnapshot(l, bids, invitations, awards, orders);
      PublishClassification(l);
      visit := PublishOffers(l, bids);
      PublishAwards(l, awards);
    }

    method Finish(l: Local, snap: Snapshot, orders: seq<Order>)
      requires snap.negotiationId == l.n
      modifies this
      ensures View() == Projection.Finish(old(View()), l, snap, orders)
    {
      PublishOrders(l, orders);
      PublishStatus(l);
      state := state[l.n := snap.(orderIds := TruthyIds(orders, OrderKey))];
    }

    // -------------------------------------------------------------- the resume points of a poll

    /** Awards and orders are known: finish, or claim a synthetic order and await its put. */
    method AfterOrders(l: Local, awards: seq<Award>, orders: seq<Order>, id: Id) returns (pc: Pc, ghost visit: seq<Id>)
      modifies this
      ensures Enumerates(visit, NewOffers(l))
      ensures forall s: System, p: nat | s.sh == old(View()) ::
                var s' := Proceed(s, p, l, awards, orders, visit, id); s'.sh == View() && s'.pollers[p] == pc
    {
      hide Projection.Diff, Projection.Finish, TruthyIds, Enumerates;
      var snap;
      snap, visit := Diff(l, awards, orders);
      ghost var sh1 := View();
      var neg := l.fetched.negotiation;
      if neg.Some? && neg.value.status == "APPROVED" && TruthyIds(awards, AwardKey) != {} {
        if l.n !in syntheticNegotiationIds && orders == [] && awards != [] {
          var order := SyntheticOrder(id, l, awards);
          syntheticOrderIds := syntheticOrderIds + {id};
          syntheticNegotiationIds := syntheticNegotiationIds + {l.n};
          pc := AwaitPut(l, snap, order);
          assert WantsSyntheticOrder(sh1, l, awards, orders) && View() == Mint(sh1, l.n, id);
          return;
        }
      }
      assert !WantsSyntheticOrder(sh1, l, awards, orders);
      Finish(l, snap, orders);
      pc := Done(Some(snap));
    }

    method ResumeFetch(at: Pc, names: map<Id, string>, id: Id) returns (pc: Pc, ghost visit: seq<Id>)
      requires FetchReady(at)
      modifies this
      ensures Enumerates(visit, NewOffers(LocalOf(old(View()), at, names)))
      ensures forall s: System, p: nat | s.sh == old(View()) ::
                var s' := AfterFetch(s, p, at, names, visit, id); s'.sh == View() && s'.pollers[p] == pc
    {
      hide Proceed, Enumerates, NewOffers;
      var fetched := Fetched(at.negotiation.value, at.bids.value, at.invitations.value, at.feedback.value, names);
      var l := Local(at.n, fetched, Lookup(state, at.n, NO_SNAPSHOT));
      if at.negotiation.value.None? && at.n !in state {
        pc := Done(None);
        visit := SomeVisit(NewOffers(l));
      } else if Truthy(RequisitionOf(l)) {
        pc := AwaitAwards(l, None);
        visit := SomeVisit(NewOffers(l));
      } else {
        pc, visit := AfterOrders(l, [], [], id);
      }
    }

    /** The order listing is back (or failed, and counts as empty). */
    method ResumeOrders(l: Local, awards: seq<Award>, listing: seq<Order>, id: Id) returns (pc: Pc, ghost visit: seq<Id>)
      modifies this
      ensures Enumerates(visit, NewOffers(l))
      ensures forall s: System, p: nat | s.sh == old(View()) ::
                var s' := WithOrders(s, p, l, awards, listing, visit, id); s'.sh == View() && s'.pollers[p] == pc
    {
      hide Proceed, Enumerates, NewOffers, Partition, OfRequisition;
      var mine := OfRequisition(listing, RequisitionOf(l));
      var genuine := Partition(mine, syntheticOrderIds, false);
      var synthetic := Partition(mine, syntheticOrderIds, true);
      if genuine != [] && synthetic != [] {
        pc := Deleting(l, awards, genuine, synthetic);
        visit := SomeVisit(NewOffers(l));
      } else {
        pc, visit := AfterOrders(l, awards, mine, id);
      }
    }

    /** One delete returned: forget the id if it succeeded, then the next, or on with the real orders. */
    method ResumeDelete(at: Pc, ok: bool, id: Id) returns (pc: Pc, ghost visit: seq<Id>)
      requires at.Deleting? && at.pending != []
      modifies this
      ensures Enumerates(visit, NewOffers(at.l))
      ensures forall s: System, p: nat | s.sh == (if ok then Discard(old(View()), at.pending[0].orderId) else old(View())) ::
                var s' := NextDelete(s, p, at.l, at.awards, at.genuine, at.pending[1..], visit, id);
                s'.sh == View() && s'.pollers[p] == pc
    {
      hide Proceed, Enumerates, NewOffers;
      if ok {
        syntheticOrderIds := syntheticOrderIds - {at.pending[0].orderId};
      }
      if at.pending[1..] == [] {
        pc, visit := AfterOrders(at.l, at.awards, at.genuine, id);
      } else {
        pc := Deleting(at.l, at.awards, at.genuine, at.pending[1..]);
        visit := SomeVisit(NewOffers(at.l));
      }
    }

    /** The put returned, successfully or not: publish orders and status, save, return. */
    method ResumePut(at: Pc) returns (pc: Pc)
      requires at.AwaitPut? && at.snapshot.negotiationId == at.l.n
      modifies this
      ensures View() == Projection.Finish(old(View()), at.l, at.snapshot, []) && pc == Done(Some(at.snapshot))
    {
      hide Projection.Finish;
      Finish(at.l, at.snapshot, []);
      pc := Done(Some(at.snapshot));
    }
  }

  lemma NothingDerived(l: Local, bids: seq<Bid>)
    requires bids == Named(l)
    ensures AutoInvitations([], l.fetched.names) == [] && bids[..0] == [] && bids[..|bids|] == bids
    ensures forall listed :: Unseen([], listed) == []
    ensures KeySet([], SupplierKey) == {}
    ensures bids == [] ==> Derived(l) == []
  {
  }

  lemma OneMoreDerivation(bids: seq<Bid>, i: nat, names: map<Id, string>)
    requires i < |bids|
    ensures AutoInvitations(bids[..i + 1], names)
         == var out, b := AutoInvitations(bids[..i], names), bids[i];
            if Truthy(b.supplierId) && b.supplierId !in KeySet(out, SupplierKey) then out + [AutoInvitation(b, names)] else out
    ensures AutoInvitation(bids[i], names).supplierId == bids[i].supplierId
  {
    assert bids[..i + 1][..i] == bids[..i];
  }

  lemma OneMoreDerived(derived: seq<Communication>, c: Communication, listed: set<Id>)
    ensures Unseen(derived + [c], listed)
         == if c.communicationId in listed then Unseen(derived, listed) else Unseen(derived, listed) + [c]
    ensures KeySet(derived + [c], SupplierKey) == KeySet(derived, SupplierKey) + {c.supplierId}
  {
    assert (derived + [c])[..|derived|] == derived;
    KeySetAppend(derived, [c], SupplierKey);
    assert KeySet([c], SupplierKey) == {c.supplierId} by { assert SupplierKey([c][0]) in KeySet([c], SupplierKey); }
  }

  lemma NoVisit(bids: seq<Bid>)
    ensures BidsInOrder([], bids) == []
    ensures NoDuplicates<Id>([]) && Elements<Id>([]) == {}
  {
  }

  lemma OneMoreBid(visit: seq<Id>, id: Id, bids: seq<Bid>)
    ensures BidsInOrder(visit + [id], bids)
         == var found := FirstBid(bids, id);
            if found.Some? then BidsInOrder(visit, bids) + [found.value] else BidsInOrder(visit, bids)
  {
    assert (visit + [id])[..|visit|] == visit;
  }

  lemma OneMoreOffer(visit: seq<Id>, id: Id, bids: seq<Bid>, wanted: set<Id>, published: set<Id>, done: seq<Bid>)
    requires id in wanted && done == Fresh(BidsInOrder(visit, bids), BidKey, wanted, published)
    ensures Fresh(BidsInOrder(visit + [id], bids), BidKey, wanted, published)
         == if FirstBid(bids, id).Some? && id !in published + KeySet(done, BidKey) then done + [FirstBid(bids, id).value]
            else done
    ensures FirstBid(bids, id).Some? ==>
              KeySet(done + [FirstBid(bids, id).value], BidKey) == KeySet(done, BidKey) + {id}
  {
    hide Fresh, KeySet, BidsInOrder, FirstBid;
    OneMoreBid(visit, id, bids);
    var found := FirstBid(bids, id);
    if found.Some? {
      FirstBidFound(bids, id);
      var before := BidsInOrder(visit, bids);
      var rows := before + [found.value];
      assert rows[..|before|] == before && rows[..|before| + 1] == rows;
      GuardedStep(rows, |before|, BidKey, wanted, published, done);
    }
  }
}
