/**
 * What the guard sets say about the log: an event key is in the log exactly
 * when its guard is set, and it is there once.  Every publish block keeps this,
 * and emits exactly the current ids that were not yet published, whatever
 * earlier snapshot it compares with.
 */
module EventGuards {
  import opened Basics
  import opened OrderRows
  import opened EventBus
  import opened Projection

  datatype Kind = Rfq | Feedback | Offer | AwardKind | Po | Classification

  datatype EventKey = EventKey(kind: Kind, id: Id)

  /**
   * The identity an event must not share with another.  Derived invitations
   * have none (the code has no guard for them; see DerivedInvitations), nor
   * have status changes (see StatusRepeats).
   */
  function KeyOf(e: Event): Option<EventKey> {
    match e
    case RfqSent(_, c, derived) => if derived then None else Some(EventKey(Rfq, c.communicationId))
    case AuctionRoundFeedback(_, c) => Some(EventKey(Feedback, c.communicationId))
    case ClassificationDefined(n, _, _) => Some(EventKey(Classification, n))
    case OfferReceived(_, b) => Some(EventKey(Offer, b.bidId))
    case AwardIssued(_, a) => Some(EventKey(AwardKind, a.awardId))
    case PoIssued(_, o) => Some(EventKey(Po, o.orderId))
    case StatusChange(_, _, _) => None
  }

  ghost predicate AtMostOnce(log: seq<Event>) {
    forall i, j | 0 <= i < j < |log| && KeyOf(log[i]).Some? :: KeyOf(log[i]) != KeyOf(log[j])
  }

  ghost predicate Logged(log: seq<Event>, k: EventKey) {
    exists i | 0 <= i < |log| :: KeyOf(log[i]) == Some(k)
  }

  predicate Marked(p: Published, k: EventKey) {
    match k.kind
    case Rfq => k.id in p.invites
    case Feedback => k.id in p.feedback
    case Offer => k.id in p.offers
    case AwardKind => k.id in p.awards
    case Po => k.id in p.orders
    case Classification => k.id in p.classifications
  }

  /** Each key is logged exactly when marked, and never twice. */
  ghost predicate GuardsMatch(sh: Shared) {
    AtMostOnce(sh.bus.log) && forall k :: Logged(sh.bus.log, k) <==> Marked(sh.published, k)
  }

  ghost predicate Grows(p: Published, q: Published) {
    && p.awards <= q.awards && p.orders <= q.orders && p.offers <= q.offers
    && p.invites <= q.invites && p.feedback <= q.feedback && p.classifications <= q.classifications
  }

  // ---------------------------------------------------------------- appending a block

  lemma LoggedAppend(a: seq<Event>, b: seq<Event>, k: EventKey)
    ensures Logged(a + b, k) <==> Logged(a, k) || Logged(b, k)
  {
    if Logged(a, k) {
      var i :| 0 <= i < |a| && KeyOf(a[i]) == Some(k);
      assert (a + b)[i] == a[i];
    }
    if Logged(b, k) {
      var i :| 0 <= i < |b| && KeyOf(b[i]) == Some(k);
      assert (a + b)[|a| + i] == b[i];
    }
  }

  lemma AtMostOnceAppend(a: seq<Event>, b: seq<Event>)
    requires AtMostOnce(a) && AtMostOnce(b)
    requires forall k | Logged(b, k) :: !Logged(a, k)
    ensures AtMostOnce(a + b)
  {
    forall i, j | 0 <= i < j < |a + b| && KeyOf((a + b)[i]).Some?
      ensures KeyOf((a + b)[i]) != KeyOf((a + b)[j])
    {
      if i < |a| <= j && KeyOf(b[j - |a|]).Some? {
        assert Logged(a, KeyOf(a[i]).value);
        assert Logged(b, KeyOf(b[j - |a|]).value);
      }
    }
  }

  /** Emitting unmarked keys once each, and marking them, keeps the guards right. */
  lemma BlockKeepsGuards(sh: Shared, es: seq<Event>, p: Published)
    requires GuardsMatch(sh) && AtMostOnce(es)
    requires forall k | Logged(es, k) :: !Marked(sh.published, k)
    requires forall k :: Marked(p, k) <==> Marked(sh.published, k) || Logged(es, k)
    ensures GuardsMatch(Emit(sh.(published := p), es))
  {
    PublishAllFrame(sh.bus, es);
    AtMostOnceAppend(sh.bus.log, es);
    forall k ensures Logged(sh.bus.log + es, k) <==> Marked(p, k) {
      LoggedAppend(sh.bus.log, es, k);
    }
  }

  // ---------------------------------------------------------------- the id-guarded loop

  /** A guarded loop emits each wanted, unpublished id exactly once. */
  lemma {:induction false} FreshExact<T>(rows: seq<T>, key: T -> Id, wanted: set<Id>, published: set<Id>)
    ensures KeySet(Fresh(rows, key, wanted, published), key) == KeySet(rows, key) * wanted - published
    ensures forall i, j | 0 <= i < j < |Fresh(rows, key, wanted, published)| ::
              key(Fresh(rows, key, wanted, published)[i]) != key(Fresh(rows, key, wanted, published)[j])
    ensures forall r | r in Fresh(rows, key, wanted, published) :: r in rows
  {
    if rows != [] {
      var init, r := rows[..|rows| - 1], rows[|rows| - 1];
      FreshExact(init, key, wanted, published);
      var out := Fresh(init, key, wanted, published);
      KeySetAppend(init, [r], key);
      KeySetAppend(out, [r], key);
      assert rows == init + [r];
      assert KeySet([r], key) == {key(r)} by { assert key([r][0]) in KeySet([r], key); }
      assert forall i | 0 <= i < |out| :: key(out[i]) in KeySet(out, key);
    }
  }

  /** Each row taken is the first of its id, and rows are taken in the order they come. */
  lemma {:induction false} FreshInOrder<T>(rows: seq<T>, key: T -> Id, wanted: set<Id>, published: set<Id>)
    returns (at: seq<nat>)
    ensures |at| == |Fresh(rows, key, wanted, published)|
    ensures forall k | 0 <= k < |at| :: at[k] < |rows| && Fresh(rows, key, wanted, published)[k] == rows[at[k]]
    ensures forall j, k | 0 <= j < k < |at| :: at[j] < at[k]
    ensures forall j, k | 0 <= k < |at| && 0 <= j < at[k] :: key(rows[j]) != key(rows[at[k]])
  {
    at := [];
    if rows != [] {
      var init, r := rows[..|rows| - 1], rows[|rows| - 1];
      at := FreshInOrder(init, key, wanted, published);
      var out := Fresh(init, key, wanted, published);
      if key(r) in wanted && key(r) !in published + KeySet(out, key) {
        FreshExact(init, key, wanted, published);
        forall j | 0 <= j < |init| ensures key(rows[j]) != key(r) {
          assert key(init[j]) in KeySet(init, key);
        }
        at := at + [|init|];
      }
    }
  }

  ghost predicate KeyedBy<T>(es: seq<Event>, rows: seq<T>, key: T -> Id, kind: Kind) {
    && |es| == |rows|
    && forall i | 0 <= i < |es| :: KeyOf(es[i]) == Some(EventKey(kind, key(rows[i])))
  }

  lemma KeyedLogged<T>(es: seq<Event>, rows: seq<T>, key: T -> Id, kind: Kind)
    requires KeyedBy(es, rows, key, kind)
    ensures forall k :: Logged(es, k) <==> k.kind == kind && k.id in KeySet(rows, key)
  {
    forall k: EventKey | k.kind == kind && k.id in KeySet(rows, key) ensures Logged(es, k) {
      var i :| 0 <= i < |rows| && key(rows[i]) == k.id;
      assert KeyOf(es[i]) == Some(k);
    }
  }

  lemma GuardedBlock<T>(sh: Shared, rows: seq<T>, key: T -> Id, wanted: set<Id>, published: set<Id>,
                        kind: Kind, es: seq<Event>, p: Published)
    requires GuardsMatch(sh)
    requires KeyedBy(es, Fresh(rows, key, wanted, published), key, kind)
    requires forall k: EventKey | k.kind == kind && Marked(sh.published, k) :: k.id in published
    requires forall k :: Marked(p, k) <==>
               || Marked(sh.published, k)
               || (k.kind == kind && k.id in KeySet(Fresh(rows, key, wanted, published), key))
    ensures GuardsMatch(Emit(sh.(published := p), es))
  {
    var out := Fresh(rows, key, wanted, published);
    FreshExact(rows, key, wanted, published);
    KeyedLogged(es, out, key, kind);
    forall i, j | 0 <= i < j < |es| && KeyOf(es[i]).Some? ensures KeyOf(es[i]) != KeyOf(es[j]) {
      assert key(out[i]) != key(out[j]);
    }
    BlockKeepsGuards(sh, es, p);
  }

  // ---------------------------------------------------------------- each block

  lemma InvitationsKeepGuards(sh: Shared, l: Local)
    requires GuardsMatch(sh)
    ensures GuardsMatch(PublishInvitations(sh, l))
  {
    var rows := l.fetched.invitations;
    var wanted := TruthyIds(rows, CommunicationKey) - TruthyIds(l.prev.invitations, CommunicationKey);
    GuardedBlock(sh, rows, CommunicationKey, wanted, sh.published.invites, Rfq,
                 RfqEvents(l.n, FreshInvitations(sh, l)), PublishInvitations(sh, l).published);
  }

  lemma FeedbackKeepsGuards(sh: Shared, l: Local)
    requires GuardsMatch(sh)
    ensures GuardsMatch(PublishFeedback(sh, l))
  {
    var rows := l.fetched.feedback;
    var wanted := TruthyIds(rows, CommunicationKey) - TruthyIds(l.prev.feedback, CommunicationKey);
    GuardedBlock(sh, rows, CommunicationKey, wanted, sh.published.feedback, Feedback,
                 FeedbackEvents(l.n, FreshFeedback(sh, l)), PublishFeedback(sh, l).published);
  }

  lemma {:induction false} DerivedAreAuto(bids: seq<Bid>, names: map<Id, string>)
    ensures forall c | c in AutoInvitations(bids, names) :: IsAutoId(c.communicationId)
  {
    if bids != [] { DerivedAreAuto(bids[..|bids| - 1], names); }
  }

  lemma {:induction false} UnseenSubset(cs: seq<Communication>, seen: set<Id>)
    ensures forall c | c in Unseen(cs, seen) :: c in cs && c.communicationId !in seen
    ensures forall c | c in cs && c.communicationId !in seen :: c in Unseen(cs, seen)
  {
    if cs != [] {
      UnseenSubset(cs[..|cs| - 1], seen);
      assert cs == cs[..|cs| - 1] + [cs[|cs| - 1]];
    }
  }

  lemma DerivedKeepGuards(sh: Shared, l: Local)
    requires GuardsMatch(sh)
    ensures GuardsMatch(PublishDerived(sh, l))
  {
    var es := DerivedEvents(l.n, FreshDerived(l));
    assert forall i | 0 <= i < |es| :: KeyOf(es[i]) == None;
    BlockKeepsGuards(sh, es, sh.published);
    assert sh == sh.(published := sh.published);
  }

  lemma ClassificationKeepsGuards(sh: Shared, l: Local)
    requires GuardsMatch(sh)
    ensures GuardsMatch(PublishClassification(sh, l))
  {
    if DefinesClassification(sh, l) {
      var neg := l.fetched.negotiation.value;
      var es := [ClassificationDefined(l.n, neg.quadrant, neg.strategy)];
      assert KeyOf(es[0]) == Some(EventKey(Classification, l.n));
      BlockKeepsGuards(sh, es, PublishClassification(sh, l).published);
    }
  }

  lemma OffersKeepGuards(sh: Shared, l: Local, visit: seq<Id>)
    requires GuardsMatch(sh)
    ensures GuardsMatch(PublishOffers(sh, l, visit))
  {
    GuardedBlock(sh, BidsInOrder(visit, Named(l)), BidKey, NewOffers(l), sh.published.offers, Offer,
                 OfferEvents(l.n, FreshOffers(sh, l, visit)), PublishOffers(sh, l, visit).published);
  }

  lemma AwardsKeepGuards(sh: Shared, l: Local, awards: seq<Award>)
    requires GuardsMatch(sh)
    ensures GuardsMatch(PublishAwards(sh, l, awards))
  {
    GuardedBlock(sh, awards, AwardKey, TruthyIds(awards, AwardKey) - l.prev.awardIds, sh.published.awards, AwardKind,
                 AwardEvents(l.n, FreshAwards(sh, l, awards)), PublishAwards(sh, l, awards).published);
  }

  lemma OrdersKeepGuards(sh: Shared, l: Local, orders: seq<Order>)
    requires GuardsMatch(sh)
    ensures GuardsMatch(PublishOrders(sh, l, orders))
  {
    GuardedBlock(sh, orders, OrderKey, TruthyIds(orders, OrderKey) - l.prev.orderIds, sh.published.orders, Po,
                 PoEvents(l.n, FreshOrders(sh, l, orders)), PublishOrders(sh, l, orders).published);
  }

  lemma StatusKeepsGuards(sh: Shared, l: Local)
    requires GuardsMatch(sh)
    ensures GuardsMatch(PublishStatus(sh, l))
  {
    var cur := CurrentStatus(l);
    if Truthy(cur) && LastStatus(sh.published, l.n) != Some(cur) {
      var es := [StatusChange(l.n, cur, LastStatus(sh.published, l.n))];
      var seen := sh.(processed := sh.processed + [(l.n, cur)]);
      assert forall k :: !Logged(es, k);
      BlockKeepsGuards(seen, es, PublishStatus(sh, l).published);
    }
  }

  // ---------------------------------------------------------------- snapshots are covered

  /** The ids a snapshot shows that have an event of their own, apart from orders. */
  ghost predicate Covered(s: Snapshot, p: Published) {
    && (forall id | id in TruthyIds(s.invitations, CommunicationKey) && !IsAutoId(id) :: id in p.invites)
    && TruthyIds(s.feedback, CommunicationKey) <= p.feedback
    && PricedIds(s.bids) <= p.offers
    && s.awardIds <= p.awards
    && (Truthy(s.quadrant) || Truthy(s.strategy) ==> s.negotiationId in p.classifications)
  }

  ghost predicate CoveredWithOrders(s: Snapshot, p: Published) {
    Covered(s, p) && s.orderIds <= p.orders
  }

  lemma CoveredMonotone(s: Snapshot, p: Published, q: Published)
    requires Grows(p, q)
    ensures Covered(s, p) ==> Covered(s, q)
    ensures CoveredWithOrders(s, p) ==> CoveredWithOrders(s, q)
  {
  }

  // ---------------------------------------------------------------- exact emission

  lemma {:induction false} FirstBidFound(bids: seq<Bid>, id: Id)
    ensures FirstBid(bids, id).Some? <==> id in KeySet(bids, BidKey)
    ensures FirstBid(bids, id).Some? ==> FirstBid(bids, id).value in bids && FirstBid(bids, id).value.bidId == id
  {
    if bids != [] {
      FirstBidFound(bids[1..], id);
      KeySetAppend([bids[0]], bids[1..], BidKey);
      assert bids == [bids[0]] + bids[1..];
      assert KeySet([bids[0]], BidKey) == {bids[0].bidId} by { assert BidKey([bids[0]][0]) in KeySet([bids[0]], BidKey); }
    }
  }

  lemma {:induction false} BidsInOrderKeys(visit: seq<Id>, bids: seq<Bid>)
    requires Elements(visit) <= KeySet(bids, BidKey)
    ensures KeySet(BidsInOrder(visit, bids), BidKey) == Elements(visit)
    ensures forall b | b in BidsInOrder(visit, bids) :: b in bids
  {
    if visit != [] {
      var init, id := visit[..|visit| - 1], visit[|visit| - 1];
      assert visit == init + [id];
      assert id in Elements(visit);
      BidsInOrderKeys(init, bids);
      FirstBidFound(bids, id);
      var b := FirstBid(bids, id).value;
      KeySetAppend(BidsInOrder(init, bids), [b], BidKey);
      assert KeySet([b], BidKey) == {id} by { assert BidKey([b][0]) in KeySet([b], BidKey); }
    }
  }

  lemma PricedIdsAreBids(bids: seq<Bid>)
    ensures PricedIds(bids) <= KeySet(bids, BidKey)
  {
    forall id | id in PricedIds(bids) ensures id in KeySet(bids, BidKey) {
      var fp :| fp in Fingerprints(bids) && fp.0 == id;
      var i :| 0 <= i < |bids| && Priced(bids[i]) && (bids[i].bidId, Price(bids[i]), bids[i].rank) == fp;
      assert BidKey(bids[i]) == id;
    }
  }

  /**
   * The comparison with the previous snapshot is redundant: as long as that
   * snapshot is covered, however stale, each block emits exactly the current
   * ids that are not yet published.
   */
  lemma EmissionIsExact(sh: Shared, l: Local, awards: seq<Award>, orders: seq<Order>, visit: seq<Id>)
    requires CoveredWithOrders(l.prev, sh.published) && Enumerates(visit, NewOffers(l))
    ensures forall id | !IsAutoId(id) ::
              id in KeySet(FreshInvitations(sh, l), CommunicationKey)
              <==> id in TruthyIds(l.fetched.invitations, CommunicationKey) - sh.published.invites
    ensures KeySet(FreshFeedback(sh, l), CommunicationKey)
         == TruthyIds(l.fetched.feedback, CommunicationKey) - sh.published.feedback
    ensures KeySet(FreshOffers(sh, l, visit), BidKey) == PricedIds(Named(l)) - sh.published.offers
    ensures forall id :: id in KeySet(FreshOffers(sh, l, visit), BidKey)
                         <==> HasPrice(l.fetched.bids, id) && id !in sh.published.offers
    ensures KeySet(FreshAwards(sh, l, awards), AwardKey) == TruthyIds(awards, AwardKey) - sh.published.awards
    ensures KeySet(FreshOrders(sh, l, orders), OrderKey) == TruthyIds(orders, OrderKey) - sh.published.orders
  {
    var invs, fb := l.fetched.invitations, l.fetched.feedback;
    FreshExact(invs, CommunicationKey, TruthyIds(invs, CommunicationKey) - TruthyIds(l.prev.invitations, CommunicationKey),
               sh.published.invites);
    FreshExact(fb, CommunicationKey, TruthyIds(fb, CommunicationKey) - TruthyIds(l.prev.feedback, CommunicationKey),
               sh.published.feedback);
    FreshExact(awards, AwardKey, TruthyIds(awards, AwardKey) - l.prev.awardIds, sh.published.awards);
    FreshExact(orders, OrderKey, TruthyIds(orders, OrderKey) - l.prev.orderIds, sh.published.orders);
    OffersAreExact(sh, l, visit);
  }

  /** A row of the bid with an amount or a total amount. */
  ghost predicate HasPrice(rows: seq<Bid>, id: Id) {
    exists r | r in rows :: r.bidId == id && (r.amount != 0.0 || r.totalAmount != 0.0)
  }

  lemma PricedIdsHavePrice(bids: seq<Bid>)
    ensures forall id :: id in PricedIds(bids) <==> HasPrice(bids, id)
  {
    forall id | id in PricedIds(bids) ensures HasPrice(bids, id) {
      var fp :| fp in Fingerprints(bids) && fp.0 == id;
      var i :| 0 <= i < |bids| && Priced(bids[i]) && (bids[i].bidId, Price(bids[i]), bids[i].rank) == fp;
      assert bids[i] in bids;
    }
    forall id | HasPrice(bids, id) ensures id in PricedIds(bids) {
      var r :| r in bids && r.bidId == id && (r.amount != 0.0 || r.totalAmount != 0.0);
      var i :| 0 <= i < |bids| && bids[i] == r;
      var fp := (r.bidId, Price(r), r.rank);
      assert fp in Fingerprints(bids);
      assert fp.0 in PricedIds(bids);
    }
  }

  lemma OffersAreExact(sh: Shared, l: Local, visit: seq<Id>)
    requires Covered(l.prev, sh.published) && Enumerates(visit, NewOffers(l))
    ensures KeySet(FreshOffers(sh, l, visit), BidKey) == PricedIds(Named(l)) - sh.published.offers
    ensures forall id :: id in KeySet(FreshOffers(sh, l, visit), BidKey)
                         <==> HasPrice(l.fetched.bids, id) && id !in sh.published.offers
  {
    PricedIdsHavePrice(Named(l));
    NamedKeepPrices(l);
    PricedIdsAreBids(Named(l));
    NewOffersArePriced(l);
    assert Elements(visit) <= KeySet(Named(l), BidKey);
    BidsInOrderKeys(visit, Named(l));
    FreshExact(BidsInOrder(visit, Named(l)), BidKey, NewOffers(l), sh.published.offers);
  }

  /** Filling in a supplier's name leaves ids and prices alone. */
  lemma NamedKeepPrices(l: Local)
    ensures forall id :: HasPrice(Named(l), id) <==> HasPrice(l.fetched.bids, id)
  {
    var bids, named := l.fetched.bids, Named(l);
    forall id | HasPrice(named, id) ensures HasPrice(bids, id) {
      var r :| r in named && r.bidId == id && (r.amount != 0.0 || r.totalAmount != 0.0);
      var i :| 0 <= i < |named| && named[i] == r;
      assert bids[i] in bids;
    }
    forall id | HasPrice(bids, id) ensures HasPrice(named, id) {
      var r :| r in bids && r.bidId == id && (r.amount != 0.0 || r.totalAmount != 0.0);
      var i :| 0 <= i < |bids| && bids[i] == r;
      assert named[i] in named;
    }
  }

  lemma NewOffersArePriced(l: Local)
    ensures NewOffers(l) <= PricedIds(Named(l))
    ensures PricedIds(Named(l)) <= NewOffers(l) + PricedIds(l.prev.bids)
  {
    forall id | id in PricedIds(Named(l)) ensures id in NewOffers(l) + PricedIds(l.prev.bids) {
      var fp :| fp in Fingerprints(Named(l)) && fp.0 == id;
      if fp in Fingerprints(l.prev.bids) {
        assert fp.0 in PricedIds(l.prev.bids);
      } else {
        assert fp in Fingerprints(Named(l)) - Fingerprints(l.prev.bids);
      }
    }
  }

  /** Whether a classification is announced does not depend on the previous snapshot either. */
  lemma ClassificationIsExact(sh: Shared, l: Local)
    requires Covered(l.prev, sh.published)
    requires l.prev.negotiationId == l.n || l.prev == NO_SNAPSHOT
    ensures DefinesClassification(sh, l) <==>
              && l.fetched.negotiation.Some? && l.n !in sh.published.classifications
              && (Truthy(l.fetched.negotiation.value.quadrant) || Truthy(l.fetched.negotiation.value.strategy))
  {
  }

  // ---------------------------------------------------------------- what a segment publishes

  ghost function ClassificationEvents(sh: Shared, l: Local): seq<Event> {
    if DefinesClassification(sh, l) then
      [ClassificationDefined(l.n, l.fetched.negotiation.value.quadrant, l.fetched.negotiation.value.strategy)]
    else []
  }

  /** The events of one diff: each block looks at its own guard set only. */
  ghost function DiffEvents(sh: Shared, l: Local, awards: seq<Award>, visit: seq<Id>): seq<Event> {
    RfqEvents(l.n, FreshInvitations(sh, l)) + FeedbackEvents(l.n, FreshFeedback(sh, l))
    + DerivedEvents(l.n, FreshDerived(l)) + ClassificationEvents(sh, l)
    + OfferEvents(l.n, FreshOffers(sh, l, visit)) + AwardEvents(l.n, FreshAwards(sh, l, awards))
  }

  ghost function DiffPublished(sh: Shared, l: Local, awards: seq<Award>, visit: seq<Id>): Published {
    var p := sh.published;
    p.(invites := p.invites + KeySet(FreshInvitations(sh, l), CommunicationKey),
       feedback := p.feedback + KeySet(FreshFeedback(sh, l), CommunicationKey),
       classifications := p.classifications + (if DefinesClassification(sh, l) then {l.n} else {}),
       offers := p.offers + KeySet(FreshOffers(sh, l, visit), BidKey),
       awards := p.awards + KeySet(FreshAwards(sh, l, awards), AwardKey))
  }

  /** What the first `k` blocks of a diff have done to the log and the guards. */
  ghost predicate Emitted(sh: Shared, sh': Shared, es: seq<Event>, p: Published) {
    sh'.bus.log == sh.bus.log + es && sh'.published == p
  }

  lemma EmittedNext(sh: Shared, sh1: Shared, es: seq<Event>, block: seq<Event>, p: Published)
    requires sh1.bus.log == sh.bus.log + es
    ensures Emitted(sh, Emit(sh1.(published := p), block), es + block, p)
  {
    PublishAllFrame(sh1.bus, block);
    assert sh.bus.log + es + block == sh.bus.log + (es + block);
  }

  lemma DiffEffects(sh: Shared, l: Local, awards: seq<Award>, orders: seq<Order>, visit: seq<Id>)
    ensures Emitted(sh, Diff(sh, l, awards, orders, visit), DiffEvents(sh, l, awards, visit), DiffPublished(sh, l, awards, visit))
  {
    hide PublishAll, Fresh, KeySet, TruthyIds, BidsInOrder, NewOffers, Derived, Unseen, BuildSnapshot;
    var es: seq<Event>, e := [], RfqEvents(l.n, FreshInvitations(sh, l));
    var s1 := PublishInvitations(sh, l);
    EmittedNext(sh, sh, es, e, s1.published);
    assert es + e == e;
    es, e := e, FeedbackEvents(l.n, FreshFeedback(sh, l));
    var s2 := PublishFeedback(s1, l);
    EmittedNext(sh, s1, es, e, s2.published);
    es, e := es + e, DerivedEvents(l.n, FreshDerived(l));
    var s3 := PublishDerived(s2, l);
    EmittedNext(sh, s2, es, e, s2.published);
    assert s2.(published := s2.published) == s2;
    es, e := es + e, ClassificationEvents(sh, l);
    var s4 := Save(s3, BuildSnapshot(l, awards, orders));
    var s5 := PublishClassification(s4, l);
    ClassificationEmits(sh, s4, l, es);
    es, e := es + e, OfferEvents(l.n, FreshOffers(sh, l, visit));
    var s6 := PublishOffers(s5, l, visit);
    EmittedNext(sh, s5, es, e, s6.published);
    es, e := es + e, AwardEvents(l.n, FreshAwards(sh, l, awards));
    EmittedNext(sh, s6, es, e, PublishAwards(s6, l, awards).published);
  }

  lemma ClassificationEmits(sh: Shared, sh1: Shared, l: Local, es: seq<Event>)
    requires sh1.bus.log == sh.bus.log + es && sh1.published.classifications == sh.published.classifications
    ensures Emitted(sh, PublishClassification(sh1, l), es + ClassificationEvents(sh, l),
                    sh1.published.(classifications := sh.published.classifications
                                                      + if DefinesClassification(sh, l) then {l.n} else {}))
  {
    if DefinesClassification(sh, l) {
      EmittedNext(sh, sh1, es, ClassificationEvents(sh, l), PublishClassification(sh1, l).published);
    } else {
      assert sh.published.classifications + {} == sh.published.classifications;
    }
  }

  lemma DiffSaves(sh: Shared, l: Local, awards: seq<Award>, orders: seq<Order>, visit: seq<Id>)
    ensures var d := Diff(sh, l, awards, orders, visit);
      && d.state == sh.state[l.n := BuildSnapshot(l, awards, orders)]
      && d.processed == sh.processed
  {
    hide PublishAll, Fresh, KeySet, TruthyIds, BidsInOrder, NewOffers, Unseen;
  }

  ghost function StatusEvents(sh: Shared, l: Local): seq<Event> {
    if Truthy(CurrentStatus(l)) && LastStatus(sh.published, l.n) != Some(CurrentStatus(l)) then
      [StatusChange(l.n, CurrentStatus(l), LastStatus(sh.published, l.n))]
    else []
  }

  lemma FinishEffects(sh: Shared, l: Local, snap: Snapshot, orders: seq<Order>)
    ensures var f := Finish(sh, l, snap, orders);
      && f.bus.log == sh.bus.log + (PoEvents(l.n, FreshOrders(sh, l, orders)) + StatusEvents(sh, l))
      && f.state == sh.state[snap.negotiationId := snap.(orderIds := TruthyIds(orders, OrderKey))]
      && f.processed == sh.processed + (if Truthy(CurrentStatus(l)) then [(l.n, CurrentStatus(l))] else [])
      && LastStatus(f.published, l.n)
         == (if Truthy(CurrentStatus(l)) then Some(CurrentStatus(l)) else LastStatus(sh.published, l.n))
  {
    hide PublishAll, Fresh, KeySet, TruthyIds;
    var s1 := PublishOrders(sh, l, orders);
    PublishAllFrame(sh.bus, PoEvents(l.n, FreshOrders(sh, l, orders)));
    PublishAllFrame(s1.bus, StatusEvents(s1, l));
  }

  // ---------------------------------------------------------------- the atomic segments

  lemma DiffKeepsGuards(sh: Shared, l: Local, awards: seq<Award>, orders: seq<Order>, visit: seq<Id>)
    requires GuardsMatch(sh)
    ensures GuardsMatch(Diff(sh, l, awards, orders, visit))
    ensures Grows(sh.published, Diff(sh, l, awards, orders, visit).published)
  {
    var s1 := PublishInvitations(sh, l);
    InvitationsKeepGuards(sh, l);
    var s2 := PublishFeedback(s1, l);
    FeedbackKeepsGuards(s1, l);
    var s3 := PublishDerived(s2, l);
    DerivedKeepGuards(s2, l);
    var s4 := Save(s3, BuildSnapshot(l, awards, orders));
    var s5 := PublishClassification(s4, l);
    ClassificationKeepsGuards(s4, l);
    var s6 := PublishOffers(s5, l, visit);
    OffersKeepGuards(s5, l, visit);
    AwardsKeepGuards(s6, l, awards);
  }

  lemma FinishKeepsGuards(sh: Shared, l: Local, snap: Snapshot, orders: seq<Order>)
    requires GuardsMatch(sh)
    ensures GuardsMatch(Finish(sh, l, snap, orders))
    ensures Grows(sh.published, Finish(sh, l, snap, orders).published)
  {
    var s1 := PublishOrders(sh, l, orders);
    OrdersKeepGuards(sh, l, orders);
    StatusKeepsGuards(s1, l);
  }

  /** After `Diff`, everything the new snapshot shows (orders aside) has been published. */
  lemma DiffCovers(sh: Shared, l: Local, awards: seq<Award>, orders: seq<Order>, visit: seq<Id>)
    requires CoveredWithOrders(l.prev, sh.published) && Enumerates(visit, NewOffers(l))
    requires l.prev.negotiationId == l.n || l.prev == NO_SNAPSHOT
    ensures Covered(BuildSnapshot(l, awards, orders), Diff(sh, l, awards, orders, visit).published)
  {
    var invs, derived := l.fetched.invitations, Derived(l);
    EmissionIsExact(sh, l, awards, orders, visit);
    DerivedAreAuto(Named(l), l.fetched.names);
    KeySetAppend(invs, derived, CommunicationKey);
    assert forall i | 0 <= i < |derived| :: derived[i] in derived;
    var s3 := PublishDerived(PublishFeedback(PublishInvitations(sh, l), l), l);
    var s5 := PublishClassification(Save(s3, BuildSnapshot(l, awards, orders)), l);
    ClassificationIsExact(Save(s3, BuildSnapshot(l, awards, orders)), l);
    EmissionIsExact(s5, l, awards, orders, visit);
    EmissionIsExact(PublishOffers(s5, l, visit), l, awards, orders, visit);
  }

  lemma FinishCovers(sh: Shared, l: Local, snap: Snapshot, orders: seq<Order>)
    requires l.prev.orderIds <= sh.published.orders && Covered(snap, sh.published)
    ensures CoveredWithOrders(snap.(orderIds := TruthyIds(orders, OrderKey)), Finish(sh, l, snap, orders).published)
  {
    FreshExact(orders, OrderKey, TruthyIds(orders, OrderKey) - l.prev.orderIds, sh.published.orders);
  }
}
