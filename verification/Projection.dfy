/**
 * The supplier-offer projection, as functions on its shared state.
 *
 * One poll of a negotiation is cut at its suspension points.  What lies
 * between two of them is one function here: `Diff` (compare with the previous
 * snapshot, publish, save), `Mint` (claim a synthetic order) and `Finish`
 * (publish orders and status, save again).
 */
module Projection {
  import opened Basics
  import opened OrderRows
  import opened EventBus

  // ---------------------------------------------------------------- data

  datatype Negotiation = Negotiation(requisitionId: Id, status: string, quadrant: string, strategy: string)

  /** What one read of the negotiation's tables returned. */
  datatype Fetched = Fetched(negotiation: Option<Negotiation>, bids: seq<Bid>,
                             invitations: seq<Communication>, feedback: seq<Communication>,
                             names: map<Id, string>)

  datatype Snapshot = Snapshot(negotiationId: Id, requisitionId: Id, status: string,
                               quadrant: string, strategy: string,
                               invitations: seq<Communication>, feedback: seq<Communication>,
                               bids: seq<Bid>, awards: seq<Award>, orders: seq<Order>,
                               awardIds: set<Id>, orderIds: set<Id>)

  /** Stands for the empty dictionary a first poll compares against. */
  const NO_SNAPSHOT := Snapshot("", "", "", "", "", [], [], [], [], [], {}, {})

  /** Which events have been published: one guard per event type. */
  datatype Published = Published(statuses: map<Id, string>, awards: set<Id>, orders: set<Id>,
                                 offers: set<Id>, invites: set<Id>, feedback: set<Id>,
                                 classifications: set<Id>)

  /** Module-level state; `processed` is a history of the statuses polls finished with. */
  datatype Shared = Shared(state: map<Id, Snapshot>, published: Published,
                           syntheticOrders: set<Id>, syntheticNegotiations: set<Id>,
                           bus: Bus, processed: seq<(Id, string)>)

  const INITIAL := Shared(map[], Published(map[], {}, {}, {}, {}, {}, {}), {}, {}, EMPTY_BUS, [])

  /** A poll's local variables once its first read is back. */
  datatype Local = Local(n: Id, fetched: Fetched, prev: Snapshot)

  // ---------------------------------------------------------------- row keys

  function CommunicationKey(c: Communication): Id { c.communicationId }
  function SupplierKey(c: Communication): Id { c.supplierId }
  function BidKey(b: Bid): Id { b.bidId }
  function AwardKey(a: Award): Id { a.awardId }
  function OrderKey(o: Order): Id { o.orderId }

  function TruthyIds<T>(rows: seq<T>, key: T -> Id): set<Id> {
    KeySet(rows, key) - {""}
  }

  /** The rows an id-guarded publish loop emits: wanted, not yet published, first of their id. */
  function Fresh<T>(rows: seq<T>, key: T -> Id, wanted: set<Id>, published: set<Id>): seq<T> {
    if rows == [] then [] else
      var out := Fresh(rows[..|rows| - 1], key, wanted, published);
      var r := rows[|rows| - 1];
      if key(r) in wanted && key(r) !in published + KeySet(out, key) then out + [r] else out
  }

  // ---------------------------------------------------------------- bids

  predicate Priced(b: Bid) {
    b.totalAmount != 0.0 || b.amount != 0.0
  }

  function Price(b: Bid): real {
    if b.amount != 0.0 then b.amount else b.totalAmount
  }

  function Fingerprints(bids: seq<Bid>): set<(Id, real, Option<int>)> {
    set i | 0 <= i < |bids| && Priced(bids[i]) :: (bids[i].bidId, Price(bids[i]), bids[i].rank)
  }

  function PricedIds(bids: seq<Bid>): set<Id> {
    set fp | fp in Fingerprints(bids) :: fp.0
  }

  function NewlyPriced(bids: seq<Bid>, prevBids: seq<Bid>): set<Id> {
    set fp | fp in Fingerprints(bids) - Fingerprints(prevBids) :: fp.0
  }

  function WithSupplierName(b: Bid, names: map<Id, string>): Bid {
    b.(supplierName := Or(b.supplierName, Or(Lookup(names, b.supplierId, ""), b.supplierId)))
  }

  function NamedBids(bids: seq<Bid>, names: map<Id, string>): (named: seq<Bid>)
    ensures |named| == |bids|
    ensures forall i | 0 <= i < |bids| :: named[i] == WithSupplierName(bids[i], names)
  {
    if bids == [] then [] else
      NamedBids(bids[..|bids| - 1], names) + [WithSupplierName(bids[|bids| - 1], names)]
  }

  function FirstBid(bids: seq<Bid>, id: Id): Option<Bid> {
    if bids == [] then None
    else if bids[0].bidId == id then Some(bids[0])
    else FirstBid(bids[1..], id)
  }

  /** The first bid of each id, in the order the ids are visited. */
  function BidsInOrder(visit: seq<Id>, bids: seq<Bid>): seq<Bid> {
    if visit == [] then [] else
      var rest := BidsInOrder(visit[..|visit| - 1], bids);
      var found := FirstBid(bids, visit[|visit| - 1]);
      if found.Some? then rest + [found.value] else rest
  }

  // ---------------------------------------------------------------- invitations derived from bids

  function AutoId(supplierId: Id): Id {
    "auto-" + supplierId
  }

  /** Whether an id has the form reserved for derived invitations. */
  predicate IsAutoId(id: Id) {
    "auto-" <= id
  }

  function AutoInvitation(b: Bid, names: map<Id, string>): Communication {
    Communication(AutoId(b.supplierId), b.supplierId,
                  Or(b.supplierName, Lookup(names, b.supplierId, b.supplierId)))
  }

  function AutoInvitations(bids: seq<Bid>, names: map<Id, string>): seq<Communication> {
    if bids == [] then [] else
      var out := AutoInvitations(bids[..|bids| - 1], names);
      var b := bids[|bids| - 1];
      if Truthy(b.supplierId) && b.supplierId !in KeySet(out, SupplierKey)
      then out + [AutoInvitation(b, names)] else out
  }

  function Unseen(cs: seq<Communication>, seen: set<Id>): seq<Communication> {
    if cs == [] then [] else
      var out := Unseen(cs[..|cs| - 1], seen);
      if cs[|cs| - 1].communicationId !in seen then out + [cs[|cs| - 1]] else out
  }

  function Named(l: Local): seq<Bid> {
    NamedBids(l.fetched.bids, l.fetched.names)
  }

  function Derived(l: Local): seq<Communication> {
    if l.fetched.invitations == [] then AutoInvitations(Named(l), l.fetched.names) else []
  }

  function BuildSnapshot(l: Local, awards: seq<Award>, orders: seq<Order>): Snapshot {
    var neg := if l.fetched.negotiation.Some? then l.fetched.negotiation.value else Negotiation("", "", "", "");
    Snapshot(l.n, neg.requisitionId, neg.status, neg.quadrant, neg.strategy,
             l.fetched.invitations + Derived(l), l.fetched.feedback, Named(l), awards, orders,
             TruthyIds(awards, AwardKey), TruthyIds(orders, OrderKey))
  }

  // ---------------------------------------------------------------- event lists

  function RfqEvents(n: Id, cs: seq<Communication>): (es: seq<Event>)
    ensures |es| == |cs| && forall i | 0 <= i < |cs| :: es[i] == RfqSent(n, cs[i], false)
  {
    seq(|cs|, i requires 0 <= i < |cs| => RfqSent(n, cs[i], false))
  }

  function DerivedEvents(n: Id, cs: seq<Communication>): (es: seq<Event>)
    ensures |es| == |cs| && forall i | 0 <= i < |cs| :: es[i] == RfqSent(n, cs[i], true)
  {
    seq(|cs|, i requires 0 <= i < |cs| => RfqSent(n, cs[i], true))
  }

  function FeedbackEvents(n: Id, cs: seq<Communication>): (es: seq<Event>)
    ensures |es| == |cs| && forall i | 0 <= i < |cs| :: es[i] == AuctionRoundFeedback(n, cs[i])
  {
    seq(|cs|, i requires 0 <= i < |cs| => AuctionRoundFeedback(n, cs[i]))
  }

  function OfferEvents(n: Id, bs: seq<Bid>): (es: seq<Event>)
    ensures |es| == |bs| && forall i | 0 <= i < |bs| :: es[i] == OfferReceived(n, bs[i])
  {
    seq(|bs|, i requires 0 <= i < |bs| => OfferReceived(n, bs[i]))
  }

  function AwardEvents(n: Id, rows: seq<Award>): (es: seq<Event>)
    ensures |es| == |rows| && forall i | 0 <= i < |rows| :: es[i] == AwardIssued(n, rows[i])
  {
    seq(|rows|, i requires 0 <= i < |rows| => AwardIssued(n, rows[i]))
  }

  function PoEvents(n: Id, os: seq<Order>): (es: seq<Event>)
    ensures |es| == |os| && forall i | 0 <= i < |os| :: es[i] == PoIssued(n, os[i])
  {
    seq(|os|, i requires 0 <= i < |os| => PoIssued(n, os[i]))
  }

  // ---------------------------------------------------------------- the publish blocks

  function Emit(sh: Shared, es: seq<Event>): Shared {
    sh.(bus := PublishAll(sh.bus, es))
  }

  function FreshInvitations(sh: Shared, l: Local): seq<Communication> {
    var rows := l.fetched.invitations;
    Fresh(rows, CommunicationKey,
          TruthyIds(rows, CommunicationKey) - TruthyIds(l.prev.invitations, CommunicationKey),
          sh.published.invites)
  }

  function PublishInvitations(sh: Shared, l: Local): Shared {
    var picked := FreshInvitations(sh, l);
    Emit(sh.(published := sh.published.(invites := sh.published.invites + KeySet(picked, CommunicationKey))),
         RfqEvents(l.n, picked))
  }

  function FreshFeedback(sh: Shared, l: Local): seq<Communication> {
    var rows := l.fetched.feedback;
    Fresh(rows, CommunicationKey,
          TruthyIds(rows, CommunicationKey) - TruthyIds(l.prev.feedback, CommunicationKey),
          sh.published.feedback)
  }

  function PublishFeedback(sh: Shared, l: Local): Shared {
    var picked := FreshFeedback(sh, l);
    Emit(sh.(published := sh.published.(feedback := sh.published.feedback + KeySet(picked, CommunicationKey))),
         FeedbackEvents(l.n, picked))
  }

  function FreshDerived(l: Local): seq<Communication> {
    Unseen(Derived(l), TruthyIds(l.prev.invitations, CommunicationKey))
  }

  /** Derived invitations have no guard set: only the previous snapshot is consulted. */
  function PublishDerived(sh: Shared, l: Local): Shared {
    Emit(sh, DerivedEvents(l.n, FreshDerived(l)))
  }

  function Save(sh: Shared, snap: Snapshot): Shared {
    sh.(state := sh.state[snap.negotiationId := snap])
  }

  predicate DefinesClassification(sh: Shared, l: Local) {
    && l.fetched.negotiation.Some?
    && l.n !in sh.published.classifications
    && var neg := l.fetched.negotiation.value;
       || (Truthy(neg.quadrant) && neg.quadrant != l.prev.quadrant)
       || (Truthy(neg.strategy) && neg.strategy != l.prev.strategy)
  }

  function PublishClassification(sh: Shared, l: Local): Shared {
    if DefinesClassification(sh, l) then
      var neg := l.fetched.negotiation.value;
      Emit(sh.(published := sh.published.(classifications := sh.published.classifications + {l.n})),
           [ClassificationDefined(l.n, neg.quadrant, neg.strategy)])
    else sh
  }

  function NewOffers(l: Local): set<Id> {
    NewlyPriced(Named(l), l.prev.bids)
  }

  /** The order in which a set is visited is the runtime's choice. */
  ghost predicate Enumerates(visit: seq<Id>, ids: set<Id>) {
    NoDuplicates(visit) && Elements(visit) == ids
  }

  lemma OneMoreVisit(visit: seq<Id>, remaining: set<Id>, id: Id, wanted: set<Id>)
    requires NoDuplicates(visit) && Elements(visit) !! remaining && Elements(visit) + remaining == wanted && id in remaining
    ensures NoDuplicates(visit + [id])
    ensures Elements(visit + [id]) !! (remaining - {id}) && Elements(visit + [id]) + (remaining - {id}) == wanted
  {
    assert Elements(visit + [id]) == Elements(visit) + {id};
    assert forall i | 0 <= i < |visit| :: visit[i] in Elements(visit);
  }

  /** Every finite set can be visited in some order. */
  lemma SomeVisit(ids: set<Id>) returns (visit: seq<Id>)
    ensures Enumerates(visit, ids)
  {
    visit := [];
    var rest := ids;
    while rest != {}
      invariant NoDuplicates(visit) && Elements(visit) !! rest && Elements(visit) + rest == ids
    {
      var id :| id in rest;
      OneMoreVisit(visit, rest, id, ids);
      visit, rest := visit + [id], rest - {id};
    }
  }

  function FreshOffers(sh: Shared, l: Local, visit: seq<Id>): seq<Bid> {
    Fresh(BidsInOrder(visit, Named(l)), BidKey, NewOffers(l), sh.published.offers)
  }

  function PublishOffers(sh: Shared, l: Local, visit: seq<Id>): Shared {
    var picked := FreshOffers(sh, l, visit);
    Emit(sh.(published := sh.published.(offers := sh.published.offers + KeySet(picked, BidKey))),
         OfferEvents(l.n, picked))
  }

  function FreshAwards(sh: Shared, l: Local, awards: seq<Award>): seq<Award> {
    Fresh(awards, AwardKey, TruthyIds(awards, AwardKey) - l.prev.awardIds, sh.published.awards)
  }

  function PublishAwards(sh: Shared, l: Local, awards: seq<Award>): Shared {
    var picked := FreshAwards(sh, l, awards);
    Emit(sh.(published := sh.published.(awards := sh.published.awards + KeySet(picked, AwardKey))),
         AwardEvents(l.n, picked))
  }

  function FreshOrders(sh: Shared, l: Local, orders: seq<Order>): seq<Order> {
    Fresh(orders, OrderKey, TruthyIds(orders, OrderKey) - l.prev.orderIds, sh.published.orders)
  }

  function PublishOrders(sh: Shared, l: Local, orders: seq<Order>): Shared {
    var picked := FreshOrders(sh, l, orders);
    Emit(sh.(published := sh.published.(orders := sh.published.orders + KeySet(picked, OrderKey))),
         PoEvents(l.n, picked))
  }

  function CurrentStatus(l: Local): string {
    if l.fetched.negotiation.Some? then l.fetched.negotiation.value.status else ""
  }

  function LastStatus(p: Published, n: Id): Option<string> {
    if n in p.statuses then Some(p.statuses[n]) else None
  }

  function PublishStatus(sh: Shared, l: Local): Shared {
    var cur := CurrentStatus(l);
    if !Truthy(cur) then sh else
      var seen := sh.(processed := sh.processed + [(l.n, cur)]);
      var last := LastStatus(sh.published, l.n);
      if last == Some(cur) then seen else
        Emit(seen.(published := sh.published.(statuses := sh.published.statuses[l.n := cur])),
             [StatusChange(l.n, cur, last)])
  }

  // ---------------------------------------------------------------- the atomic segments

  /** Everything from the last read to the decision about a synthetic order. */
  function Diff(sh: Shared, l: Local, awards: seq<Award>, orders: seq<Order>, visit: seq<Id>): Shared {
    var s1 := PublishInvitations(sh, l);
    var s2 := PublishFeedback(s1, l);
    var s3 := PublishDerived(s2, l);
    var s4 := Save(s3, BuildSnapshot(l, awards, orders));
    var s5 := PublishClassification(s4, l);
    var s6 := PublishOffers(s5, l, visit);
    PublishAwards(s6, l, awards)
  }

  predicate WantsSyntheticOrder(sh: Shared, l: Local, awards: seq<Award>, orders: seq<Order>) {
    && l.fetched.negotiation.Some?
    && l.fetched.negotiation.value.status == "APPROVED"
    && TruthyIds(awards, AwardKey) != {}
    && l.n !in sh.syntheticNegotiations
    && orders == []
    && awards != []
  }

  function SyntheticOrder(orderId: Id, l: Local, awards: seq<Award>): Order
    requires l.fetched.negotiation.Some? && awards != []
  {
    NormalizeReceivedOrder(
      SyntheticRow(orderId, l.fetched.negotiation.value.requisitionId, TENANT_ID, awards[0],
                   WinnerName(awards[0], l.fetched.names)))
  }

  /** Both guards are set before the put is awaited. */
  function Mint(sh: Shared, n: Id, orderId: Id): Shared {
    sh.(syntheticOrders := sh.syntheticOrders + {orderId},
        syntheticNegotiations := sh.syntheticNegotiations + {n})
  }

  /** Everything after the synthetic-order step. */
  function Finish(sh: Shared, l: Local, snap: Snapshot, orders: seq<Order>): Shared {
    var s1 := PublishOrders(sh, l, orders);
    var s2 := PublishStatus(s1, l);
    Save(s2, snap.(orderIds := TruthyIds(orders, OrderKey)))
  }

  // ---------------------------------------------------------------- the order list a poll works with

  function OfRequisition(rows: seq<Order>, requisitionId: Id): seq<Order> {
    if rows == [] then [] else
      var out := OfRequisition(rows[..|rows| - 1], requisitionId);
      if rows[|rows| - 1].requisitionId == requisitionId then out + [rows[|rows| - 1]] else out
  }

  /** The rows whose id is in `ids` (or, with `member` false, is not). */
  function Partition(rows: seq<Order>, ids: set<Id>, member: bool): seq<Order> {
    if rows == [] then [] else
      var out := Partition(rows[..|rows| - 1], ids, member);
      if (rows[|rows| - 1].orderId in ids) == member then out + [rows[|rows| - 1]] else out
  }

  function RealOrders(sh: Shared, rows: seq<Order>): seq<Order> {
    Partition(rows, sh.syntheticOrders, false)
  }

  function SyntheticOrders(sh: Shared, rows: seq<Order>): seq<Order> {
    Partition(rows, sh.syntheticOrders, true)
  }
}
