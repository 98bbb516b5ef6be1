/**
 * The requisition lifecycle in stub mode: one requisition advanced lazily by
 * the clock and moved by guarded decisions, and the store of all of them with
 * the purchase orders they lead to.  Each route is one atomic step.
 */
module Requisitions {
  import opened Basics

  datatype Status = New | Active | InNegotiation | PendingHumanApproval
                  | Completed | RequiresAttention | Failed | Cancelled

  /** A request may leave out the price or the quantity of an item. */
  datatype ItemRequest = ItemRequest(itemId: Id, estimatedPrice: Option<real>, quantity: Option<int>)

  datatype LineItem = LineItem(itemId: Id, quantity: int, unitPrice: real, total: real)

  datatype ApprovalContext = ApprovalContext(blockReason: string, quadrant: string,
                                             qualityScore: real, awardedPrice: real)

  /** `requested` and `overrideLimit` are the creation arguments, kept as history. */
  datatype Requisition = Requisition(requisitionId: Id, tenantId: Id, status: Status, items: seq<LineItem>,
                                     budgetLimit: real, createdAt: real, cycleBacks: nat,
                                     graphNodes: map<string, string>, approvalContext: Option<ApprovalContext>,
                                     requested: seq<ItemRequest>, overrideLimit: real)

  datatype PurchaseOrder = PurchaseOrder(orderId: Id, requisitionId: Id, tenantId: Id, supplierId: Id,
                                         supplierName: string, status: string, lineItems: seq<LineItem>,
                                         totalValue: real, savingsAmount: real, savingsPct: real, awardId: Id)

  // ---------------------------------------------------------------- one requisition

  predicate Resting(s: Status) {
    s == Cancelled || s == Completed || s == Failed || s == PendingHumanApproval || s == RequiresAttention
  }

  const DEMO_CONTEXT := ApprovalContext("quadrant_strategic", "STRATEGIC", 0.83, 132.50)

  /** Time-based progression, applied whenever a requisition is read. */
  function Advance(pr: Requisition, now: real): Requisition {
    var elapsed := now - pr.createdAt;
    if Resting(pr.status) then pr
    else if elapsed < 5.0 then pr.(status := New, graphNodes := map[])
    else if elapsed < 10.0 then pr.(status := Active, graphNodes := map["ingest" := "completed"])
    else if elapsed < 20.0 then
      pr.(status := InNegotiation,
          graphNodes := map["ingest" := "completed", "spot_bidding" := "in_progress", "bid_evaluation" := "pending"])
    else
      pr.(status := PendingHumanApproval,
          graphNodes := map["ingest" := "completed", "spot_bidding" := "completed",
                            "bid_evaluation" := "completed", "award" := "pending"],
          approvalContext := Some(DEMO_CONTEXT))
  }

  function CycleBack(pr: Requisition, now: real): Requisition {
    if pr.cycleBacks >= 1 then pr.(status := RequiresAttention, approvalContext := None)
    else pr.(status := InNegotiation, cycleBacks := pr.cycleBacks + 1, createdAt := now - 15.0, approvalContext := None)
  }

  /** What can happen to one requisition; the decisions are guarded by its status. */
  datatype Action = Poll(at: real) | Approve(at: real) | Reject(at: real) | SendBack(at: real) | Cancel(at: real)

  predicate Allowed(pr: Requisition, a: Action) {
    a.Poll? || a.Cancel? || pr.status == PendingHumanApproval
  }

  function Act(pr: Requisition, a: Action): Requisition {
    match a
    case Poll(now) => Advance(pr, now)
    case Approve(_) => pr.(status := Completed, graphNodes := pr.graphNodes["award" := "completed"])
    case Reject(_) => pr.(status := Cancelled)
    case SendBack(now) => CycleBack(pr, now)
    case Cancel(_) => pr.(status := Cancelled)
  }

  // ---------------------------------------------------------------- the ranking

  function Rank(pr: Requisition): nat {
    match pr.status
    case New => 0
    case Active => 1
    case InNegotiation => if pr.cycleBacks == 0 then 2 else 4
    case PendingHumanApproval => if pr.cycleBacks == 0 then 3 else 5
    case Completed => 6
    case RequiresAttention => 6
    case Failed => 6
    case Cancelled => 7
  }

  /** The status is one the clock can have led to by time `now`. */
  ghost predicate Timely(pr: Requisition, now: real) {
    && pr.cycleBacks <= 1
    && (pr.status == New ==> pr.cycleBacks == 0)
    && (pr.status == Active ==> pr.cycleBacks == 0 && now - pr.createdAt >= 5.0)
    && (pr.status == InNegotiation ==> now - pr.createdAt >= if pr.cycleBacks == 0 then 10.0 else 15.0)
  }

  lemma ActRises(pr: Requisition, now: real, a: Action)
    requires Timely(pr, now) && Allowed(pr, a) && a.at >= now
    ensures Timely(Act(pr, a), a.at)
    ensures Rank(Act(pr, a)) >= Rank(pr)
    ensures Act(pr, a).status != pr.status ==> Rank(Act(pr, a)) > Rank(pr)
  {
  }

  ghost predicate Legal(pr: Requisition, now: real, acts: seq<Action>)
    decreases |acts|
  {
    acts == [] || (Allowed(pr, acts[0]) && acts[0].at >= now && Legal(Act(pr, acts[0]), acts[0].at, acts[1..]))
  }

  function Run(pr: Requisition, acts: seq<Action>): Requisition
    decreases |acts|
  {
    if acts == [] then pr else Run(Act(pr, acts[0]), acts[1..])
  }

  function StatusChanges(pr: Requisition, acts: seq<Action>): nat
    decreases |acts|
  {
    if acts == [] then 0
    else (if Act(pr, acts[0]).status != pr.status then 1 else 0) + StatusChanges(Act(pr, acts[0]), acts[1..])
  }

  /** How often an approver's send-back restarted the negotiation. */
  function Reruns(pr: Requisition, acts: seq<Action>): nat
    decreases |acts|
  {
    if acts == [] then 0
    else (if acts[0].SendBack? && Act(pr, acts[0]).status == InNegotiation then 1 else 0)
         + Reruns(Act(pr, acts[0]), acts[1..])
  }

  /**
   * Over any legal run the number of status changes is bounded by the rank
   * gained, hence by 7; at most one re-run happens; and nothing leaves CANCELLED.
   */
  lemma {:induction false} LifecycleIsRanked(pr: Requisition, now: real, acts: seq<Action>)
    requires Timely(pr, now) && Legal(pr, now, acts)
    ensures StatusChanges(pr, acts) + Rank(pr) <= Rank(Run(pr, acts)) <= 7
    ensures StatusChanges(pr, acts) <= 7
    ensures Reruns(pr, acts) + pr.cycleBacks <= 1
    ensures pr.status == Cancelled ==> Run(pr, acts).status == Cancelled
    decreases |acts|
  {
    if acts != [] {
      ActRises(pr, now, acts[0]);
      LifecycleIsRanked(Act(pr, acts[0]), acts[0].at, acts[1..]);
    }
  }

  // ---------------------------------------------------------------- lazy advance

  function PollAll(pr: Requisition, times: seq<real>): Requisition {
    if times == [] then pr else Advance(PollAll(pr, times[..|times| - 1]), times[|times| - 1])
  }

  ghost predicate NonDecreasing(times: seq<real>) {
    forall i, j | 0 <= i <= j < |times| :: times[i] <= times[j]
  }

  /** When, and how often, a requisition was read in between makes no difference. */
  lemma {:induction false} AdvanceIsScheduleIndependent(pr: Requisition, times: seq<real>)
    requires times != [] && NonDecreasing(times)
    ensures PollAll(pr, times) == Advance(pr, times[|times| - 1])
  {
    if |times| > 1 {
      AdvanceIsScheduleIndependent(pr, times[..|times| - 1]);
    } else {
      assert times[..0] == [];
    }
  }

  // ---------------------------------------------------------------- money

  function Total(items: seq<LineItem>): real {
    if items == [] then 0.0 else Total(items[..|items| - 1]) + items[|items| - 1].total
  }

  function PriceOf(it: ItemRequest): real {
    if it.estimatedPrice.Some? then it.estimatedPrice.value else 0.0
  }

  function QuantityOf(it: ItemRequest): int {
    if it.quantity.Some? then it.quantity.value else 1
  }

  function EstimatedCost(items: seq<ItemRequest>): real {
    if items == [] then 0.0
    else EstimatedCost(items[..|items| - 1]) + PriceOf(items[|items| - 1]) * QuantityOf(items[|items| - 1]) as real
  }

  function ToLine(it: ItemRequest): LineItem {
    LineItem(it.itemId, QuantityOf(it), PriceOf(it), PriceOf(it) * QuantityOf(it) as real)
  }

  function LineItems(items: seq<ItemRequest>): seq<LineItem> {
    if items == [] then [] else LineItems(items[..|items| - 1]) + [ToLine(items[|items| - 1])]
  }

  lemma {:induction false} LineItemsTotal(items: seq<ItemRequest>)
    ensures Total(LineItems(items)) == EstimatedCost(items)
  {
    if items != [] {
      LineItemsTotal(items[..|items| - 1]);
      var lines := LineItems(items);
      assert lines[..|lines| - 1] == LineItems(items[..|items| - 1]);
    }
  }

  function NewRequisition(tenantId: Id, requisitionId: Id, items: seq<ItemRequest>, overrideLimit: real, now: real): Requisition {
    Requisition(requisitionId, tenantId, New, LineItems(items),
                if overrideLimit != 0.0 then overrideLimit else EstimatedCost(items),
                now, 0, map[], None, items, overrideLimit)
  }

  function Prefix8(id: Id): Id {
    if |id| <= 8 then id else id[..8]
  }

  /** The order for an approved requisition; in stub mode its award is a fixed one. */
  function BuildOrder(tenantId: Id, pr: Requisition): PurchaseOrder {
    PurchaseOrder("po-" + Prefix8(pr.requisitionId), pr.requisitionId, tenantId, "supplier-001", "Office Pro Supplies",
                  "RECEIVED", pr.items, Total(pr.items), 12.50, 8.6, "award-" + Prefix8(pr.requisitionId))
  }

  // ---------------------------------------------------------------- the store and its routes

  datatype Key = Key(tenantId: Id, requisitionId: Id)

  /** The dictionary's key for a requisition. */
  function KeyString(k: Key): string {
    k.tenantId + ":" + k.requisitionId
  }

  /** A listing picks the keys that start with the tenant's id and a colon. */
  predicate InTenant(k: Key, tenantId: Id) {
    tenantId + ":" <= KeyString(k)
  }

  /** Between tenants whose ids hold no colon, that picks exactly the tenant's own. */
  lemma InTenantExactly(k: Key, tenantId: Id)
    requires ':' !in tenantId && ':' !in k.tenantId
    ensures InTenant(k, tenantId) <==> k.tenantId == tenantId
  {
    var s := KeyString(k);
    assert s[|k.tenantId|] == ':' && forall i | 0 <= i < |k.tenantId| :: s[i] == k.tenantId[i];
    if InTenant(k, tenantId) {
      assert (tenantId + ":")[|tenantId|] == ':';
      assert forall i | 0 <= i < |tenantId| :: (tenantId + ":")[i] == tenantId[i] == s[i];
      assert s[|tenantId|] == ':';
    }
  }

  /** `keys` is the insertion order of the dictionary. */
  datatype Store = Store(requisitions: map<Key, Requisition>, keys: seq<Key>, orders: seq<PurchaseOrder>)

  const EMPTY := Store(map[], [], [])

  /** The packaged demo requisition, answered when no stored one has its id. */
  const FIXTURE := Requisition("req-stub-001", "6eb4ebaf-804e-5837-ae26-f665a76b58dd", InNegotiation,
                               [LineItem("item-001", 10, 8.50, 85.00), LineItem("item-002", 5, 12.00, 60.00)],
                               0.0, 0.0, 0,
                               map["ingest" := "completed", "kraljic_classify" := "completed",
                                   "spot_bidding" := "in_progress", "bid_evaluation" := "pending", "award" := "pending"],
                               None, [], 0.0)

  datatype Request =
    | CreateRequest(tenantId: Id, id: Id, items: seq<ItemRequest>, overrideLimit: real)
    | GetRequest(key: Key)
    | ListRequest(tenantId: Id, filter: Option<Status>)
    | ApproveRequest(key: Key)
    | RejectRequest(key: Key)
    | CycleBackRequest(key: Key)
    | CancelRequest(key: Key, confirm: bool)

  datatype Reply = Shown(requisition: Requisition) | Listed(requisitions: seq<Requisition>) | Accepted(status: Status)
                 | NotFound | NotPending | NeedsConfirmation

  function Put(s: Store, key: Key, pr: Requisition): Store {
    s.(requisitions := s.requisitions[key := pr])
  }

  function Create(s: Store, tenantId: Id, id: Id, items: seq<ItemRequest>, overrideLimit: real, now: real): Store {
    var key := Key(tenantId, id);
    s.(requisitions := s.requisitions[key := NewRequisition(tenantId, id, items, overrideLimit, now)], keys := s.keys + [key])
  }

  /** The store after a read: the requisition read has been advanced in place. */
  function Touch(s: Store, key: Key, now: real): Store {
    if key in s.requisitions then Put(s, key, Advance(s.requisitions[key], now)) else s
  }

  /** What a read answers. */
  function Found(s: Store, key: Key, now: real): Option<Requisition> {
    if key in s.requisitions then Some(Advance(s.requisitions[key], now))
    else if key.requisitionId == FIXTURE.requisitionId then Some(FIXTURE)
    else None
  }

  function AdvanceTenant(s: Store, tenantId: Id, now: real): Store {
    s.(requisitions := map k | k in s.requisitions ::
         if InTenant(k, tenantId) then Advance(s.requisitions[k], now) else s.requisitions[k])
  }

  function Matching(prs: map<Key, Requisition>, keys: seq<Key>, tenantId: Id, filter: Option<Status>): seq<Requisition> {
    if keys == [] then [] else
      var out := Matching(prs, keys[..|keys| - 1], tenantId, filter);
      var k := keys[|keys| - 1];
      if InTenant(k, tenantId) && k in prs && (filter.None? || filter == Some(prs[k].status)) then out + [prs[k]] else out
  }

  /** A decision on a pending requisition, after the route's read has advanced it. */
  function Decide(s: Store, key: Key, a: Action): Store {
    if key !in s.requisitions then s else
      var s' := Put(s, key, Act(s.requisitions[key], a));
      if a.Approve? then s'.(orders := s.orders + [BuildOrder(key.tenantId, s'.requisitions[key])]) else s'
  }

  predicate IsPending(s: Store, key: Key, now: real) {
    Found(s, key, now).Some? && Found(s, key, now).value.status == PendingHumanApproval
  }

  predicate MayCancel(s: Store, key: Key, confirm: bool, now: real) {
    && Found(s, key, now).Some?
    && (confirm || (Found(s, key, now).value.status != InNegotiation && Found(s, key, now).value.status != Active))
  }

  function Guarded(s: Store, key: Key, a: Action, permitted: bool): Store {
    if permitted then Decide(Touch(s, key, a.at), key, a) else Touch(s, key, a.at)
  }

  function Handle(s: Store, r: Request, now: real): Store {
    match r
    case CreateRequest(t, id, items, limit) => Create(s, t, id, items, limit, now)
    case GetRequest(key) => Touch(s, key, now)
    case ListRequest(t, _) => AdvanceTenant(s, t, now)
    case ApproveRequest(key) => Guarded(s, key, Approve(now), IsPending(s, key, now))
    case RejectRequest(key) => Guarded(s, key, Reject(now), IsPending(s, key, now))
    case CycleBackRequest(key) => Guarded(s, key, SendBack(now), IsPending(s, key, now))
    case CancelRequest(key, confirm) => Guarded(s, key, Cancel(now), MayCancel(s, key, confirm, now))
  }

  /** Whether a request is an approval that the route accepts for a stored requisition. */
  predicate ApprovesNow(s: Store, r: Request, now: real, key: Key) {
    r == ApproveRequest(key) && key in s.requisitions && IsPending(s, key, now)
  }

  // ---------------------------------------------------------------- runs of the store

  datatype Call = Call(request: Request, at: real)

  /** Ids are fresh, and the clock does not run backwards. */
  ghost predicate CanCall(s: Store, now: real, c: Call) {
    && c.at >= now
    && (c.request.CreateRequest? ==>
          c.request.id != FIXTURE.requisitionId
          && (forall k | k in s.requisitions :: k.requisitionId != c.request.id))
  }

  ghost predicate LegalCalls(s: Store, now: real, calls: seq<Call>)
    decreases |calls|
  {
    calls == [] ||
    (CanCall(s, now, calls[0]) && LegalCalls(Handle(s, calls[0].request, calls[0].at), calls[0].at, calls[1..]))
  }

  function HandleAll(s: Store, calls: seq<Call>): Store
    decreases |calls|
  {
    if calls == [] then s else HandleAll(Handle(s, calls[0].request, calls[0].at), calls[1..])
  }

  /** How many of the calls are accepted approvals of `key`. */
  function Approvals(s: Store, calls: seq<Call>, key: Key): nat
    decreases |calls|
  {
    if calls == [] then 0 else
      (if ApprovesNow(s, calls[0].request, calls[0].at, key) then 1 else 0)
      + Approvals(Handle(s, calls[0].request, calls[0].at), calls[1..], key)
  }

  function OrdersOf(orders: seq<PurchaseOrder>, key: Key): seq<PurchaseOrder> {
    if orders == [] then [] else
      var out := OrdersOf(orders[..|orders| - 1], key);
      var o := orders[|orders| - 1];
      if o.tenantId == key.tenantId && o.requisitionId == key.requisitionId then out + [o] else out
  }

  /** What one request does to one stored requisition, as legal actions. */
  function Actions(s: Store, r: Request, now: real, key: Key): seq<Action> {
    if key !in s.requisitions then [] else
      match r
      case CreateRequest(_, _, _, _) => []
      case GetRequest(k) => if k == key then [Poll(now)] else []
      case ListRequest(t, _) => if InTenant(key, t) then [Poll(now)] else []
      case ApproveRequest(k) => Decision(s, k, key, Approve(now), IsPending(s, k, now))
      case RejectRequest(k) => Decision(s, k, key, Reject(now), IsPending(s, k, now))
      case CycleBackRequest(k) => Decision(s, k, key, SendBack(now), IsPending(s, k, now))
      case CancelRequest(k, confirm) => Decision(s, k, key, Cancel(now), MayCancel(s, k, confirm, now))
  }

  function Decision(s: Store, k: Key, key: Key, a: Action, permitted: bool): seq<Action> {
    if k != key then [] else if permitted then [Poll(a.at), a] else [Poll(a.at)]
  }

  /** The routes move each requisition through its lifecycle and in no other way. */
  lemma RoutesFollowLifecycle(s: Store, r: Request, now: real, t: real, key: Key)
    requires key in s.requisitions && now >= t && CanCall(s, t, Call(r, now))
    requires s.requisitions[key].requisitionId == key.requisitionId
    ensures key in Handle(s, r, now).requisitions
    ensures Legal(s.requisitions[key], t, Actions(s, r, now, key))
    ensures Handle(s, r, now).requisitions[key] == Run(s.requisitions[key], Actions(s, r, now, key))
  {
    var pr := s.requisitions[key];
    var acts := Actions(s, r, now, key);
    if |acts| == 2 {
      assert acts[1..] == [acts[1]] && acts[1..][1..] == [];
      assert Run(Act(pr, acts[0]), acts[1..]) == Act(Act(pr, acts[0]), acts[1]);
    } else if |acts| == 1 {
      assert acts[1..] == [];
    }
  }

  // ---------------------------------------------------------------- the store's invariant

  ghost predicate WellFormed(key: Key, pr: Requisition) {
    && pr.requisitionId == key.requisitionId && pr.tenantId == key.tenantId
    && pr.items == LineItems(pr.requested)
    && pr.budgetLimit == (if pr.overrideLimit != 0.0 then pr.overrideLimit else EstimatedCost(pr.requested))
  }

  ghost predicate Sound(s: Store, now: real) {
    forall key | key in s.requisitions :: WellFormed(key, s.requisitions[key]) && Timely(s.requisitions[key], now)
  }

  /** The orders that belong to a requisition match what has happened to it. */
  ghost predicate OrdersMatch(s: Store, key: Key) {
    var mine := OrdersOf(s.orders, key);
    && |mine| <= 1
    && (mine != [] ==>
          && key in s.requisitions && Rank(s.requisitions[key]) >= 6
          && mine[0].lineItems == s.requisitions[key].items
          && mine[0].totalValue == Total(s.requisitions[key].items))
  }

  lemma {:induction false} RunKeepsForm(key: Key, pr: Requisition, now: real, acts: seq<Action>)
    requires WellFormed(key, pr) && Timely(pr, now) && Legal(pr, now, acts)
    ensures WellFormed(key, Run(pr, acts)) && Run(pr, acts).items == pr.items
    ensures acts != [] ==> Timely(Run(pr, acts), acts[|acts| - 1].at)
    ensures Rank(Run(pr, acts)) >= Rank(pr)
    decreases |acts|
  {
    if acts != [] {
      ActRises(pr, now, acts[0]);
      RunKeepsForm(key, Act(pr, acts[0]), acts[0].at, acts[1..]);
    }
  }

  lemma TimelyLater(pr: Requisition, t: real, now: real)
    requires Timely(pr, t) && t <= now
    ensures Timely(pr, now)
  {
  }

  lemma HandleSound(s: Store, t: real, c: Call)
    requires Sound(s, t) && CanCall(s, t, c)
    ensures Sound(Handle(s, c.request, c.at), c.at)
    ensures forall key | key in s.requisitions ::
              key in Handle(s, c.request, c.at).requisitions
              && Handle(s, c.request, c.at).requisitions[key].items == s.requisitions[key].items
              && Rank(Handle(s, c.request, c.at).requisitions[key]) >= Rank(s.requisitions[key])
  {
    var s' := Handle(s, c.request, c.at);
    forall key | key in s.requisitions
      ensures key in s'.requisitions && WellFormed(key, s'.requisitions[key]) && Timely(s'.requisitions[key], c.at)
      ensures s'.requisitions[key].items == s.requisitions[key].items
      ensures Rank(s'.requisitions[key]) >= Rank(s.requisitions[key])
    {
      RequisitionSound(s, t, c, key);
    }
    NewKeys(s, t, c);
  }

  lemma RequisitionSound(s: Store, t: real, c: Call, key: Key)
    requires Sound(s, t) && CanCall(s, t, c) && key in s.requisitions
    ensures var s' := Handle(s, c.request, c.at);
      && key in s'.requisitions && WellFormed(key, s'.requisitions[key]) && Timely(s'.requisitions[key], c.at)
      && s'.requisitions[key].items == s.requisitions[key].items
      && Rank(s'.requisitions[key]) >= Rank(s.requisitions[key])
  {
    hide Handle;
    var acts := Actions(s, c.request, c.at, key);
    RoutesFollowLifecycle(s, c.request, c.at, t, key);
    RunKeepsForm(key, s.requisitions[key], t, acts);
    TimelyLater(s.requisitions[key], t, c.at);
  }

  lemma NewKeys(s: Store, t: real, c: Call)
    requires CanCall(s, t, c)
    ensures forall key | key in Handle(s, c.request, c.at).requisitions && key !in s.requisitions ::
              WellFormed(key, Handle(s, c.request, c.at).requisitions[key])
              && Timely(Handle(s, c.request, c.at).requisitions[key], c.at)
  {
  }

  lemma OrdersOfOneMore(orders: seq<PurchaseOrder>, o: PurchaseOrder, key: Key)
    ensures OrdersOf(orders + [o], key)
         == if o.tenantId == key.tenantId && o.requisitionId == key.requisitionId then OrdersOf(orders, key) + [o]
            else OrdersOf(orders, key)
  {
    assert (orders + [o])[..|orders|] == orders;
  }

  /** An order is appended exactly by an accepted approval, and only for that requisition. */
  lemma HandleOrders(s: Store, t: real, c: Call, key: Key)
    requires Sound(s, t) && CanCall(s, t, c)
    ensures var s' := Handle(s, c.request, c.at);
      OrdersOf(s'.orders, key) ==
        if ApprovesNow(s, c.request, c.at, key)
        then OrdersOf(s.orders, key) + [BuildOrder(key.tenantId, s'.requisitions[key])]
        else OrdersOf(s.orders, key)
  {
    var s' := Handle(s, c.request, c.at);
    if c.request.ApproveRequest? && c.request.key in s.requisitions && IsPending(s, c.request.key, c.at) {
      var k := c.request.key;
      RequisitionSound(s, t, c, k);
      OrdersOfOneMore(s.orders, BuildOrder(k.tenantId, s'.requisitions[k]), key);
    }
  }

  lemma HandleKeepsOrders(s: Store, t: real, c: Call, key: Key)
    requires Sound(s, t) && CanCall(s, t, c) && OrdersMatch(s, key)
    ensures OrdersMatch(Handle(s, c.request, c.at), key)
    ensures ApprovesNow(s, c.request, c.at, key) ==> OrdersOf(s.orders, key) == []
  {
    HandleOrders(s, t, c, key);
    HandleSound(s, t, c);
    if ApprovesNow(s, c.request, c.at, key) {
      PendingHasNoOrder(s, t, c, key);
    }
  }

  lemma PendingHasNoOrder(s: Store, t: real, c: Call, key: Key)
    requires Sound(s, t) && CanCall(s, t, c) && OrdersMatch(s, key) && ApprovesNow(s, c.request, c.at, key)
    ensures OrdersOf(s.orders, key) == []
    ensures Rank(Handle(s, c.request, c.at).requisitions[key]) == 6
  {
    ActRises(s.requisitions[key], t, Poll(c.at));
  }

  // ---------------------------------------------------------------- main results

  /**
   * Over every legal sequence of route calls, a requisition has as many
   * purchase orders as accepted approvals, which is at most one; the order's
   * total is the cost of the items as requested, and also the budget limit
   * unless a non-zero limit was given.
   */
  lemma {:induction false} OneOrderPerApproval(s: Store, now: real, calls: seq<Call>, key: Key)
    requires Sound(s, now) && LegalCalls(s, now, calls) && OrdersMatch(s, key)
    ensures var s' := HandleAll(s, calls);
      && |OrdersOf(s'.orders, key)| == |OrdersOf(s.orders, key)| + Approvals(s, calls, key) <= 1
      && (forall o | o in OrdersOf(s'.orders, key) ::
            && key in s'.requisitions && o.lineItems == s'.requisitions[key].items
            && o.totalValue == EstimatedCost(s'.requisitions[key].requested)
            && (s'.requisitions[key].overrideLimit == 0.0 ==> o.totalValue == s'.requisitions[key].budgetLimit))
    decreases |calls|
  {
    if calls == [] {
      if key in s.requisitions { LineItemsTotal(s.requisitions[key].requested); }
    } else {
      HandleOrders(s, now, calls[0], key);
      HandleKeepsOrders(s, now, calls[0], key);
      HandleSound(s, now, calls[0]);
      OneOrderPerApproval(Handle(s, calls[0].request, calls[0].at), calls[0].at, calls[1..], key);
    }
  }

  /** The same, from an empty store. */
  lemma OrdersFromScratch(calls: seq<Call>, now: real, key: Key)
    requires LegalCalls(EMPTY, now, calls)
    ensures |OrdersOf(HandleAll(EMPTY, calls).orders, key)| == Approvals(EMPTY, calls, key) <= 1
  {
    OneOrderPerApproval(EMPTY, now, calls, key);
  }

  /** The actions a whole run performs on one stored requisition. */
  function AllActions(s: Store, calls: seq<Call>, key: Key): seq<Action>
    decreases |calls|
  {
    if calls == [] then [] else
      Actions(s, calls[0].request, calls[0].at, key) + AllActions(Handle(s, calls[0].request, calls[0].at), calls[1..], key)
  }

  lemma {:induction false} RunAppend(pr: Requisition, a: seq<Action>, b: seq<Action>)
    ensures Run(pr, a + b) == Run(Run(pr, a), b)
    ensures StatusChanges(pr, a + b) == StatusChanges(pr, a) + StatusChanges(Run(pr, a), b)
    decreases |a|
  {
    if a == [] {
      assert a + b == b;
    } else {
      RunAppend(Act(pr, a[0]), a[1..], b);
      assert (a + b)[1..] == a[1..] + b;
    }
  }

  lemma {:induction false} ChangesRise(pr: Requisition, now: real, acts: seq<Action>)
    requires Timely(pr, now) && Legal(pr, now, acts)
    ensures StatusChanges(pr, acts) + Rank(pr) <= Rank(Run(pr, acts))
  {
    LifecycleIsRanked(pr, now, acts);
  }

  /** Seen from the routes: a stored requisition changes status at most 7 times, ever. */
  lemma {:induction false} RoutesChangeStatusAtMostSeven(s: Store, now: real, calls: seq<Call>, key: Key)
    requires Sound(s, now) && LegalCalls(s, now, calls) && key in s.requisitions
    ensures key in HandleAll(s, calls).requisitions
    ensures HandleAll(s, calls).requisitions[key] == Run(s.requisitions[key], AllActions(s, calls, key))
    ensures StatusChanges(s.requisitions[key], AllActions(s, calls, key)) + Rank(s.requisitions[key])
         <= Rank(HandleAll(s, calls).requisitions[key]) <= 7
    ensures s.requisitions[key].status == Cancelled ==> HandleAll(s, calls).requisitions[key].status == Cancelled
    decreases |calls|
  {
    if calls != [] {
      var c, s1 := calls[0], Handle(s, calls[0].request, calls[0].at);
      var acts := Actions(s, c.request, c.at, key);
      RoutesFollowLifecycle(s, c.request, c.at, now, key);
      ChangesRise(s.requisitions[key], now, acts);
      HandleSound(s, now, c);
      RoutesChangeStatusAtMostSeven(s1, c.at, calls[1..], key);
      RunAppend(s.requisitions[key], acts, AllActions(s1, calls[1..], key));
      LifecycleIsRanked(s.requisitions[key], now, acts);
    }
  }

  /** A completed requisition can be cancelled, confirmed or not; the orders stay. */
  lemma CompletedCanBeCancelled(s: Store, key: Key, confirm: bool, at: real)
    requires key in s.requisitions && s.requisitions[key].status == Completed
    ensures MayCancel(s, key, confirm, at)
    ensures var s' := Handle(s, CancelRequest(key, confirm), at);
      key in s'.requisitions && s'.requisitions[key].status == Cancelled && s'.orders == s.orders
  {
  }

  /** So a requisition can end as CANCELLED and still have its one purchase order. */
  lemma CancelledAfterApproval(s: Store, now: real, key: Key, confirm: bool, at: real)
    requires Sound(s, now) && OrdersMatch(s, key) && ApprovesNow(s, ApproveRequest(key), now, key)
    ensures var s' := Handle(Handle(s, ApproveRequest(key), now), CancelRequest(key, confirm), at);
      key in s'.requisitions && s'.requisitions[key].status == Cancelled && |OrdersOf(s'.orders, key)| == 1
  {
    var c := Call(ApproveRequest(key), now);
    HandleOrders(s, now, c, key);
    HandleKeepsOrders(s, now, c, key);
    CompletedCanBeCancelled(Handle(s, c.request, now), key, confirm, at);
  }
}
