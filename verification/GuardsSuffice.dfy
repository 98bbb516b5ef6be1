/**
 * The comparison with the previous snapshot is redundant: in every reachable
 * state a resuming poll publishes what it would publish without it, event for
 * event, derived invitations aside.
 */
module GuardsSuffice {
  import opened Basics
  import opened OrderRows
  import opened EventBus
  import opened Projection
  import opened EventGuards
  import opened PollMachine
  import opened PollSafety
  import opened PollStreams
  import opened PollEffects

  /** The same poll with nothing to compare with. */
  function Bare(l: Local): Local {
    l.(prev := NO_SNAPSHOT)
  }

  /** A log without the derived invitations, which have no guard. */
  ghost function Guarded(es: seq<Event>): seq<Event> {
    if es == [] then [] else
      var rest := Guarded(es[..|es| - 1]);
      var e := es[|es| - 1];
      if e.RfqSent? && e.derived then rest else rest + [e]
  }

  lemma {:induction false} GuardedAppend(a: seq<Event>, b: seq<Event>)
    ensures Guarded(a + b) == Guarded(a) + Guarded(b)
  {
    if b == [] {
      assert a + b == a;
    } else {
      GuardedAppend(a, b[..|b| - 1]);
      assert (a + b)[..|a + b| - 1] == a + b[..|b| - 1];
    }
  }

  lemma {:induction false} DerivedAreUnguarded(n: Id, cs: seq<Communication>)
    ensures Guarded(DerivedEvents(n, cs)) == []
  {
    if cs != [] {
      DerivedAreUnguarded(n, cs[..|cs| - 1]);
      assert DerivedEvents(n, cs)[..|cs| - 1] == DerivedEvents(n, cs[..|cs| - 1]);
    }
  }

  /** What is wanted matters only for ids not yet published. */
  lemma {:induction false} FreshSame<T>(rows: seq<T>, key: T -> Id, wanted: set<Id>, others: set<Id>, published: set<Id>)
    requires forall id | id in KeySet(rows, key) && id !in published :: id in wanted <==> id in others
    ensures Fresh(rows, key, wanted, published) == Fresh(rows, key, others, published)
  {
    if rows != [] {
      var init, r := rows[..|rows| - 1], rows[|rows| - 1];
      assert rows == init + [r];
      KeySetAppend(init, [r], key);
      FreshSame(init, key, wanted, others, published);
      assert key(rows[|rows| - 1]) in KeySet(rows, key);
    }
  }

  lemma {:induction false} FreshAppendPublished<T>(rows: seq<T>, more: seq<T>, key: T -> Id, wanted: set<Id>, published: set<Id>)
    requires KeySet(more, key) * wanted <= published
    ensures Fresh(rows + more, key, wanted, published) == Fresh(rows, key, wanted, published)
  {
    if more == [] {
      assert rows + more == rows;
    } else {
      var init, r := more[..|more| - 1], more[|more| - 1];
      assert more == init + [r] && (rows + more)[..|rows + more| - 1] == rows + init;
      KeySetAppend(init, [r], key);
      assert key(more[|more| - 1]) in KeySet(more, key);
      FreshAppendPublished(rows, init, key, wanted, published);
    }
  }

  lemma {:induction false} BidsInOrderAppend(a: seq<Id>, b: seq<Id>, bids: seq<Bid>)
    ensures BidsInOrder(a + b, bids) == BidsInOrder(a, bids) + BidsInOrder(b, bids)
  {
    if b == [] {
      assert a + b == a;
    } else {
      BidsInOrderAppend(a, b[..|b| - 1], bids);
      assert (a + b)[..|a + b| - 1] == a + b[..|b| - 1];
    }
  }

  /** A stored invitation that is unpublished, but that the previous snapshot lists: it passes for a derived one. */
  ghost predicate Shadowed(l: Local, p: Published) {
    exists id | id in TruthyIds(l.fetched.invitations, CommunicationKey) * TruthyIds(l.prev.invitations, CommunicationKey) ::
      id !in p.invites
  }

  lemma NothingBefore()
    ensures TruthyIds(NO_SNAPSHOT.invitations, CommunicationKey) == {} && TruthyIds(NO_SNAPSHOT.feedback, CommunicationKey) == {}
  {
  }

  lemma InvitationsSame(sh: Shared, l: Local)
    ensures !Shadowed(l, sh.published) ==> FreshInvitations(sh, Bare(l)) == FreshInvitations(sh, l)
    ensures Shadowed(l, sh.published) ==>
              KeySet(FreshInvitations(sh, Bare(l)), CommunicationKey) != KeySet(FreshInvitations(sh, l), CommunicationKey)
  {
    var rows, prev := l.fetched.invitations, TruthyIds(l.prev.invitations, CommunicationKey);
    var wanted, all := TruthyIds(rows, CommunicationKey) - prev, TruthyIds(rows, CommunicationKey);
    NothingBefore();
    if Shadowed(l, sh.published) {
      FreshExact(rows, CommunicationKey, wanted, sh.published.invites);
      FreshExact(rows, CommunicationKey, all, sh.published.invites);
      var id :| id in all * prev && id !in sh.published.invites;
      assert all - {} == all;
      assert id in KeySet(FreshInvitations(sh, Bare(l)), CommunicationKey);
    } else {
      FreshSame(rows, CommunicationKey, all - {}, wanted, sh.published.invites);
    }
  }

  lemma FeedbackSame(sh: Shared, l: Local)
    requires Covered(l.prev, sh.published)
    ensures FreshFeedback(sh, Bare(l)) == FreshFeedback(sh, l)
  {
    var rows := l.fetched.feedback;
    NothingBefore();
    FreshSame(rows, CommunicationKey, TruthyIds(rows, CommunicationKey) - {},
              TruthyIds(rows, CommunicationKey) - TruthyIds(l.prev.feedback, CommunicationKey), sh.published.feedback);
  }

  lemma AwardsSame(sh: Shared, l: Local, awards: seq<Award>)
    requires Covered(l.prev, sh.published)
    ensures FreshAwards(sh, Bare(l), awards) == FreshAwards(sh, l, awards)
  {
    FreshSame(awards, AwardKey, TruthyIds(awards, AwardKey) - {}, TruthyIds(awards, AwardKey) - l.prev.awardIds, sh.published.awards);
  }

  lemma OrdersSame(sh: Shared, l: Local, orders: seq<Order>)
    requires l.prev.orderIds <= sh.published.orders
    ensures FreshOrders(sh, Bare(l), orders) == FreshOrders(sh, l, orders)
  {
    FreshSame(orders, OrderKey, TruthyIds(orders, OrderKey) - {}, TruthyIds(orders, OrderKey) - l.prev.orderIds, sh.published.orders);
  }

  lemma AllPricedAreNew(l: Local)
    ensures NewOffers(Bare(l)) == PricedIds(Named(l))
  {
    assert Fingerprints(NO_SNAPSHOT.bids) == {};
    assert Named(Bare(l)) == Named(l);
    assert Fingerprints(Named(l)) - {} == Fingerprints(Named(l));
  }

  /** Visiting the bids that are old first or last makes no difference: they are all published. */
  lemma OffersSame(sh: Shared, l: Local, visit: seq<Id>) returns (all: seq<Id>)
    requires Covered(l.prev, sh.published) && Enumerates(visit, NewOffers(l))
    ensures Enumerates(all, NewOffers(Bare(l)))
    ensures FreshOffers(sh, Bare(l), all) == FreshOffers(sh, l, visit)
  {
    var bids, wanted := Named(l), PricedIds(Named(l));
    AllPricedAreNew(l);
    NewOffersArePriced(l);
    var rest := SomeVisit(wanted - NewOffers(l));
    all := visit + rest;
    JoinedVisit(visit, NewOffers(l), rest, wanted - NewOffers(l));
    assert NewOffers(l) + (wanted - NewOffers(l)) == wanted;
    BidsInOrderAppend(visit, rest, bids);
    BidsKeys(rest, bids);
    BidsKeys(visit, bids);
    FreshAppendPublished(BidsInOrder(visit, bids), BidsInOrder(rest, bids), BidKey, wanted, sh.published.offers);
    FreshSame(BidsInOrder(visit, bids), BidKey, wanted, NewOffers(l), sh.published.offers);
  }

  lemma JoinedVisit(a: seq<Id>, x: set<Id>, b: seq<Id>, y: set<Id>)
    requires Enumerates(a, x) && Enumerates(b, y) && x !! y
    ensures Enumerates(a + b, x + y)
  {
    assert Elements(a + b) == Elements(a) + Elements(b);
    forall i, j | 0 <= i < j < |a + b| ensures (a + b)[i] != (a + b)[j] {
      if i < |a| <= j { assert a[i] in Elements(a) && b[j - |a|] in Elements(b); }
    }
  }

  lemma {:induction false} BidsKeys(visit: seq<Id>, bids: seq<Bid>)
    ensures KeySet(BidsInOrder(visit, bids), BidKey) <= Elements(visit)
  {
    if visit != [] {
      var init, id := visit[..|visit| - 1], visit[|visit| - 1];
      BidsKeys(init, bids);
      assert visit == init + [id];
      if FirstBid(bids, id).Some? {
        FirstBidFound(bids, id);
        KeySetAppend(BidsInOrder(init, bids), [FirstBid(bids, id).value], BidKey);
      }
    }
  }

  /** The events of a diff and its guards afterwards are those of the diff without a previous snapshot. */
  lemma DiffNeedsNoPrevious(sh: Shared, l: Local, awards: seq<Award>, orders: seq<Order>, visit: seq<Id>) returns (all: seq<Id>)
    requires Covered(l.prev, sh.published) && (l.prev.negotiationId == l.n || l.prev == NO_SNAPSHOT)
    requires Enumerates(visit, NewOffers(l))
    ensures Enumerates(all, NewOffers(Bare(l)))
    ensures var d, bare := Diff(sh, l, awards, orders, visit), Diff(sh, Bare(l), awards, orders, all);
      && (Guarded(d.bus.log) == Guarded(bare.bus.log) && d.published == bare.published <==> !Shadowed(l, sh.published))
  {
    hide Fresh, KeySet, TruthyIds, Diff, FreshDerived, FreshInvitations, FreshFeedback, FreshOffers, FreshAwards, Shadowed, Covered;
    all := OffersSame(sh, l, visit);
    InvitationsSame(sh, l);
    FeedbackSame(sh, l);
    AwardsSame(sh, l, awards);
    ClassificationSame(sh, l);
    DiffEffects(sh, l, awards, orders, visit);
    DiffEffects(sh, Bare(l), awards, orders, all);
    if Shadowed(l, sh.published) {
      GuardsDiffer(sh, l, awards, visit, all);
    } else {
      GuardedEvents(sh, l, awards, visit);
      GuardedEvents(sh, Bare(l), awards, all);
      GuardedAppend(sh.bus.log, DiffEvents(sh, l, awards, visit));
      GuardedAppend(sh.bus.log, DiffEvents(sh, Bare(l), awards, all));
    }
  }

  lemma ClassificationSame(sh: Shared, l: Local)
    requires Covered(l.prev, sh.published) && (l.prev.negotiationId == l.n || l.prev == NO_SNAPSHOT)
    ensures DefinesClassification(sh, Bare(l)) == DefinesClassification(sh, l)
  {
    ClassificationIsExact(sh, l);
    NothingBefore();
    assert PricedIds(NO_SNAPSHOT.bids) == {};
    ClassificationIsExact(sh, Bare(l));
  }

  lemma GuardsDiffer(sh: Shared, l: Local, awards: seq<Award>, visit: seq<Id>, all: seq<Id>)
    requires KeySet(FreshInvitations(sh, Bare(l)), CommunicationKey) != KeySet(FreshInvitations(sh, l), CommunicationKey)
    ensures DiffPublished(sh, l, awards, visit) != DiffPublished(sh, Bare(l), awards, all)
  {
    var rows := l.fetched.invitations;
    FreshExact(rows, CommunicationKey, TruthyIds(rows, CommunicationKey) - TruthyIds(l.prev.invitations, CommunicationKey), sh.published.invites);
    FreshExact(rows, CommunicationKey, TruthyIds(rows, CommunicationKey) - TruthyIds(NO_SNAPSHOT.invitations, CommunicationKey), sh.published.invites);
    var a, b := KeySet(FreshInvitations(sh, l), CommunicationKey), KeySet(FreshInvitations(sh, Bare(l)), CommunicationKey);
    assert a !! sh.published.invites && b !! sh.published.invites;
    assert (sh.published.invites + a) - sh.published.invites == a;
    assert (sh.published.invites + b) - sh.published.invites == b;
  }

  ghost function GuardedPart(sh: Shared, l: Local, awards: seq<Award>, visit: seq<Id>): seq<Event> {
    RfqEvents(l.n, FreshInvitations(sh, l)) + FeedbackEvents(l.n, FreshFeedback(sh, l)) + ClassificationEvents(sh, l)
    + OfferEvents(l.n, FreshOffers(sh, l, visit)) + AwardEvents(l.n, FreshAwards(sh, l, awards))
  }

  lemma {:induction false} AllGuarded(es: seq<Event>)
    requires forall i | 0 <= i < |es| && es[i].RfqSent? :: !es[i].derived
    ensures Guarded(es) == es
  {
    if es != [] { AllGuarded(es[..|es| - 1]); }
  }

  lemma GuardedEvents(sh: Shared, l: Local, awards: seq<Award>, visit: seq<Id>)
    ensures Guarded(DiffEvents(sh, l, awards, visit)) == GuardedPart(sh, l, awards, visit)
  {
    hide FreshDerived, FreshInvitations, FreshFeedback, FreshOffers, FreshAwards, DefinesClassification;
    var a, b := RfqEvents(l.n, FreshInvitations(sh, l)), FeedbackEvents(l.n, FreshFeedback(sh, l));
    var c, d := DerivedEvents(l.n, FreshDerived(l)), ClassificationEvents(sh, l);
    var e, f := OfferEvents(l.n, FreshOffers(sh, l, visit)), AwardEvents(l.n, FreshAwards(sh, l, awards));
    DerivedAreUnguarded(l.n, FreshDerived(l));
    GuardedButThird(a, b, c, d, e, f);
  }

  lemma GuardedButThird(a: seq<Event>, b: seq<Event>, c: seq<Event>, d: seq<Event>, e: seq<Event>, f: seq<Event>)
    requires Guarded(c) == []
    requires forall x | x in a || x in b || x in d || x in e || x in f :: x.RfqSent? ==> !x.derived
    ensures Guarded(a + b + c + d + e + f) == a + b + d + e + f
  {
    AllGuarded(a + b);
    AllGuarded(d);
    AllGuarded(e);
    AllGuarded(f);
    GuardedAppend(a + b, c);
    assert a + b + [] == a + b;
    GuardedAppend(a + b + c, d);
    GuardedAppend(a + b + c + d, e);
    GuardedAppend(a + b + c + d + e, f);
  }

  // ---------------------------------------------------------------- main results

  /** In every reachable state a poll about to resume holds a covered previous snapshot. */
  lemma PublisherCovered(s: System, step: Step)
    requires Reachable(s) && Enabled(s, step) && (Resumes(step) || step.PutDone?)
    ensures var l := PublisherLocal(s, step);
      && CoveredWithOrders(l.prev, s.sh.published) && (l.prev.negotiationId == l.n || l.prev == NO_SNAPSHOT)
  {
    hide Apply, Exec, Legal, CanChoose;
    var steps :| Legal(START, steps) && Exec(START, steps) == s;
    StartSafe();
    RunSafe(START, steps);
    assert PcSafe(s.pollers[step.p], s.sh.published);
    NothingBefore();
    assert PricedIds(NO_SNAPSHOT.bids) == {};
  }

  /**
   * In every reachable state, for whatever awards and orders a resuming poll
   * has: its diff publishes the same guarded events in the same order, and
   * leaves the same guards, as with no previous snapshot at all, exactly when
   * no stored invitation is mistaken for a derived one.
   */
  lemma PreviousSnapshotIsRedundant(s: System, step: Step, awards: seq<Award>, orders: seq<Order>, visit: seq<Id>)
    returns (all: seq<Id>)
    requires Reachable(s) && Enabled(s, step) && Resumes(step) && Enumerates(visit, NewOffers(PublisherLocal(s, step)))
    ensures Enumerates(all, NewOffers(Bare(PublisherLocal(s, step))))
    ensures var l := PublisherLocal(s, step);
            var d, bare := Diff(s.sh, l, awards, orders, visit), Diff(s.sh, Bare(l), awards, orders, all);
      Guarded(d.bus.log) == Guarded(bare.bus.log) && d.published == bare.published <==> !Shadowed(l, s.sh.published)
  {
    hide Enabled, PublisherLocal, Diff, Guarded, Shadowed;
    PublisherCovered(s, step);
    all := DiffNeedsNoPrevious(s.sh, PublisherLocal(s, step), awards, orders, visit);
  }

  /** Only an invitation stored under the form reserved for derived ids can be mistaken for one. */
  lemma ShadowedIsReserved(s: System, step: Step)
    requires Reachable(s) && Enabled(s, step) && Resumes(step) && Shadowed(PublisherLocal(s, step), s.sh.published)
    ensures exists id | id in TruthyIds(PublisherLocal(s, step).fetched.invitations, CommunicationKey) :: IsAutoId(id)
  {
    hide Enabled, PublisherLocal, TruthyIds;
    PublisherCovered(s, step);
  }

  /** The tail after the diff does not depend on the previous snapshot at all. */
  lemma TailNeedsNoPrevious(s: System, step: Step, sh: Shared, snap: Snapshot, orders: seq<Order>)
    requires Reachable(s) && Enabled(s, step) && (Resumes(step) || step.PutDone?)
    requires s.sh.published.orders <= sh.published.orders
    ensures Finish(sh, PublisherLocal(s, step), snap, orders) == Finish(sh, Bare(PublisherLocal(s, step)), snap, orders)
  {
    hide Enabled, PublisherLocal, FreshOrders, PublishAll;
    PublisherCovered(s, step);
    OrdersSame(sh, PublisherLocal(s, step), orders);
  }
}
