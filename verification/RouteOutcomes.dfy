/**
 * What a client of the routes observes, by the clock alone: how a requisition
 * stands so many seconds after its creation or its send-back, which decisions
 * are accepted when, and what an accepted one leaves behind.
 */
module RouteOutcomes {
  import opened Basics
  import opened Requisitions

  // ---------------------------------------------------------------- calls that decide nothing about a requisition

  /** Reads and creations, and decisions about other requisitions. */
  ghost predicate LeavesAlone(r: Request, key: Key) {
    match r
    case CreateRequest(_, _, _, _) => true
    case GetRequest(_) => true
    case ListRequest(_, _) => true
    case ApproveRequest(k) => k != key
    case RejectRequest(k) => k != key
    case CycleBackRequest(k) => k != key
    case CancelRequest(k, _) => k != key
  }

  ghost predicate AllLeaveAlone(calls: seq<Call>, key: Key) {
    forall i | 0 <= i < |calls| :: LeavesAlone(calls[i].request, key)
  }

  /** The time of the last call, or `now` if there is none. */
  ghost function LastAt(now: real, calls: seq<Call>): real {
    if calls == [] then now else calls[|calls| - 1].at
  }

  /** The row as it was, or as the clock has led it on by `now`. */
  ghost predicate OnClock(pr: Requisition, was: Requisition, now: real) {
    pr == was || exists t :: t <= now && pr == Advance(was, t)
  }

  lemma AdvanceAgain(was: Requisition, t: real, u: real)
    requires t <= u
    ensures Advance(Advance(was, t), u) == Advance(was, u)
  {
  }

  lemma OnClockAdvances(pr: Requisition, was: Requisition, now: real, t: real)
    requires OnClock(pr, was, now) && now <= t
    ensures Advance(pr, t) == Advance(was, t) && OnClock(pr, was, t) && OnClock(Advance(pr, t), was, t)
    ensures pr.requisitionId == was.requisitionId
  {
    if pr != was {
      var u :| u <= now && pr == Advance(was, u);
      AdvanceAgain(was, u, t);
    }
  }

  lemma CallKeepsOnClock(s: Store, now: real, c: Call, key: Key, was: Requisition)
    requires CanCall(s, now, c) && LeavesAlone(c.request, key) && was.requisitionId == key.requisitionId
    requires key in s.requisitions && OnClock(s.requisitions[key], was, now)
    ensures var s' := Handle(s, c.request, c.at); key in s'.requisitions && OnClock(s'.requisitions[key], was, c.at)
  {
    hide Handle, Advance, OnClock;
    var pr := s.requisitions[key];
    OnClockAdvances(pr, was, now, c.at);
    RoutesFollowLifecycle(s, c.request, c.at, now, key);
    var acts := Actions(s, c.request, c.at, key);
    assert acts == [] || acts == [Poll(c.at)];
    if acts != [] { assert acts[1..] == [] && Run(pr, acts) == Advance(pr, c.at); }
  }

  lemma {:induction false} CallsKeepOnClock(s: Store, now: real, calls: seq<Call>, key: Key, was: Requisition)
    requires LegalCalls(s, now, calls) && AllLeaveAlone(calls, key) && was.requisitionId == key.requisitionId
    requires key in s.requisitions && OnClock(s.requisitions[key], was, now)
    ensures var s' := HandleAll(s, calls); key in s'.requisitions && OnClock(s'.requisitions[key], was, LastAt(now, calls))
    ensures now <= LastAt(now, calls)
    decreases |calls|
  {
    hide Handle, OnClock;
    if calls != [] {
      CallKeepsOnClock(s, now, calls[0], key, was);
      assert forall i | 0 <= i < |calls[1..]| :: calls[1..][i] == calls[i + 1];
      CallsKeepOnClock(Handle(s, calls[0].request, calls[0].at), calls[0].at, calls[1..], key, was);
    }
  }

  // ---------------------------------------------------------------- how a requisition stands

  /** NEW for 5 seconds, ACTIVE to 10, IN_NEGOTIATION to 20, then pending, with the nodes and the context of each. */
  ghost predicate Stands(pr: Requisition, elapsed: real) {
    if elapsed < 5.0 then
      pr.status == New && pr.graphNodes == map[] && pr.approvalContext == None
    else if elapsed < 10.0 then
      pr.status == Active && pr.graphNodes == map["ingest" := "completed"] && pr.approvalContext == None
    else if elapsed < 20.0 then
      && pr.status == InNegotiation && pr.approvalContext == None
      && pr.graphNodes == map["ingest" := "completed", "spot_bidding" := "in_progress", "bid_evaluation" := "pending"]
    else Paused(pr)
  }

  ghost predicate Paused(pr: Requisition) {
    && pr.status == PendingHumanApproval
    && pr.graphNodes == map["ingest" := "completed", "spot_bidding" := "completed", "bid_evaluation" := "completed",
                            "award" := "pending"]
    && pr.approvalContext == Some(ApprovalContext("quadrant_strategic", "STRATEGIC", 0.83, 132.50))
  }

  /** A line for each requested item: absent prices count 0, absent quantities 1. */
  ghost predicate LinesOf(lines: seq<LineItem>, items: seq<ItemRequest>) {
    && |lines| == |items|
    && forall i | 0 <= i < |items| ::
         && lines[i].itemId == items[i].itemId
         && lines[i].unitPrice == (if items[i].estimatedPrice.Some? then items[i].estimatedPrice.value else 0.0)
         && lines[i].quantity == (if items[i].quantity.Some? then items[i].quantity.value else 1)
         && lines[i].total == lines[i].unitPrice * lines[i].quantity as real
  }

  /** The purchase order an approval leads to. */
  ghost predicate OrderOf(o: PurchaseOrder, tenantId: Id, id: Id, lines: seq<LineItem>) {
    var short := if |id| <= 8 then id else id[..8];
    && o.orderId == "po-" + short && o.awardId == "award-" + short && o.requisitionId == id && o.tenantId == tenantId
    && o.supplierId == "supplier-001" && o.supplierName == "Office Pro Supplies" && o.status == "RECEIVED"
    && o.lineItems == lines && o.totalValue == Total(lines) && o.savingsAmount == 12.50 && o.savingsPct == 8.6
  }

  lemma {:induction false} LinesAreOf(items: seq<ItemRequest>)
    ensures LinesOf(LineItems(items), items)
  {
    if items != [] {
      LinesAreOf(items[..|items| - 1]);
    }
  }

  /** What each decision makes of a requisition that stands as `pr` and is `pending` or not. */
  ghost predicate Decisions(s: Store, key: Key, t: real, pr: Requisition, pending: bool) {
    && (var a := Handle(s, ApproveRequest(key), t);
        key in a.requisitions &&
        if pending then
          && a.requisitions[key] == pr.(status := Completed, graphNodes := pr.graphNodes["award" := "completed"])
          && (exists o :: a.orders == s.orders + [o] && OrderOf(o, key.tenantId, pr.requisitionId, pr.items))
        else a.requisitions[key] == pr && a.orders == s.orders)
    && (var r := Handle(s, RejectRequest(key), t);
        && key in r.requisitions && r.orders == s.orders
        && r.requisitions[key] == if pending then pr.(status := Cancelled) else pr)
    && (var b := Handle(s, CycleBackRequest(key), t);
        && key in b.requisitions && b.orders == s.orders
        && b.requisitions[key] ==
             if !pending then pr
             else if pr.cycleBacks >= 1 then pr.(status := RequiresAttention, approvalContext := None)
             else pr.(status := InNegotiation, cycleBacks := 1, createdAt := t - 15.0, approvalContext := None))
    && (forall confirm ::
          var c := Handle(s, CancelRequest(key, confirm), t);
          && key in c.requisitions && c.orders == s.orders
          && c.requisitions[key] ==
               if !confirm && (pr.status == Active || pr.status == InNegotiation) then pr else pr.(status := Cancelled))
  }

  lemma ReadsAdvance(s: Store, key: Key, t: real, pr: Requisition)
    requires key in s.requisitions && Advance(s.requisitions[key], t) == pr
    ensures var g := Handle(s, GetRequest(key), t); key in g.requisitions && g.requisitions[key] == pr && g.orders == s.orders
    ensures forall filter :: var l := Handle(s, ListRequest(key.tenantId, filter), t);
              key in l.requisitions && l.requisitions[key] == pr && l.orders == s.orders
  {
    assert key.tenantId + ":" <= KeyString(key);
  }

  lemma DecisionsAre(s: Store, key: Key, t: real, pr: Requisition)
    requires key in s.requisitions && Advance(s.requisitions[key], t) == pr
    requires pr.cycleBacks <= 1 && pr.requisitionId == key.requisitionId
    ensures Decisions(s, key, t, pr, pr.status == PendingHumanApproval)
  {
    hide Advance;
    var s1 := Touch(s, key, t);
    assert s1.requisitions[key] == pr && s1.orders == s.orders;
    if pr.status == PendingHumanApproval {
      var o := BuildOrder(key.tenantId, pr.(status := Completed, graphNodes := pr.graphNodes["award" := "completed"]));
      assert OrderOf(o, key.tenantId, pr.requisitionId, pr.items);
      assert Handle(s, ApproveRequest(key), t).orders == s.orders + [o];
    }
  }

  // ---------------------------------------------------------------- main results

  /**
   * From creation on, whatever else is asked of the store: reads show the
   * requisition by the time since its creation; approve, reject and send-back
   * are accepted from 20 seconds on and not before, and cancelling takes a
   * confirmation between 5 and 20 seconds only.
   */
  lemma FirstPassByTheClock(s: Store, t0: real, tenantId: Id, id: Id, items: seq<ItemRequest>, overrideLimit: real,
                            calls: seq<Call>, t: real)
    requires CanCall(s, t0, Call(CreateRequest(tenantId, id, items, overrideLimit), t0))
    requires LegalCalls(Handle(s, CreateRequest(tenantId, id, items, overrideLimit), t0), t0, calls)
    requires AllLeaveAlone(calls, Key(tenantId, id)) && LastAt(t0, calls) <= t
    ensures var key, s' := Key(tenantId, id), HandleAll(Handle(s, CreateRequest(tenantId, id, items, overrideLimit), t0), calls);
      && key in Handle(s', GetRequest(key), t).requisitions
      && var pr := Handle(s', GetRequest(key), t).requisitions[key];
         && Stands(pr, t - t0) && pr.requisitionId == id && pr.tenantId == tenantId && pr.cycleBacks == 0 && pr.createdAt == t0
         && LinesOf(pr.items, items)
         && pr.budgetLimit == (if overrideLimit != 0.0 then overrideLimit else Total(pr.items))
         && (forall filter ::
               key in Handle(s', ListRequest(tenantId, filter), t).requisitions
               && Handle(s', ListRequest(tenantId, filter), t).requisitions[key] == pr)
         && Decisions(s', key, t, pr, t - t0 >= 20.0)
  {
    hide HandleAll, Decisions, LinesOf, Total, LineItems;
    var key := Key(tenantId, id);
    var s0 := Handle(s, CreateRequest(tenantId, id, items, overrideLimit), t0);
    var was := NewRequisition(tenantId, id, items, overrideLimit, t0);
    assert s0.requisitions[key] == was;
    hide Handle;
    CallsKeepOnClock(s0, t0, calls, key, was);
    var s' := HandleAll(s0, calls);
    OnClockAdvances(s'.requisitions[key], was, LastAt(t0, calls), t);
    var pr := Advance(was, t);
    ReadsAdvance(s', key, t, pr);
    DecisionsAre(s', key, t, pr);
    LinesAreOf(items);
    LineItemsTotal(items);
  }

  /**
   * After a send-back at `t1` that was accepted the first time, whatever else
   * is asked: the requisition is back in negotiation for 5 seconds and then
   * pending again, with its context; decisions are accepted from then on, and a
   * further send-back leaves it for attention.
   */
  lemma SecondPassByTheClock(s: Store, key: Key, sent: Requisition, t1: real, calls: seq<Call>, t: real)
    requires key in s.requisitions && s.requisitions[key] == sent && sent.requisitionId == key.requisitionId
    requires sent.status == InNegotiation && sent.cycleBacks == 1 && sent.createdAt == t1 - 15.0 && sent.approvalContext == None
    requires LegalCalls(s, t1, calls) && AllLeaveAlone(calls, key) && LastAt(t1, calls) <= t
    ensures var s' := HandleAll(s, calls);
      && key in Handle(s', GetRequest(key), t).requisitions
      && var pr := Handle(s', GetRequest(key), t).requisitions[key];
         && (if t - t1 < 5.0 then pr.status == InNegotiation && pr.approvalContext == None else Paused(pr))
         && pr.cycleBacks == 1 && Decisions(s', key, t, pr, t - t1 >= 5.0)
  {
    hide HandleAll, Decisions, Handle;
    CallsKeepOnClock(s, t1, calls, key, sent);
    var s' := HandleAll(s, calls);
    OnClockAdvances(s'.requisitions[key], sent, LastAt(t1, calls), t);
    var pr := Advance(sent, t);
    ReadsAdvance(s', key, t, pr);
    DecisionsAre(s', key, t, pr);
  }

  /** The two passes one after the other, from creation to the second decision. */
  lemma BothPassesByTheClock(s: Store, t0: real, tenantId: Id, id: Id, items: seq<ItemRequest>, overrideLimit: real,
                             calls: seq<Call>, t1: real, more: seq<Call>, t: real)
    requires CanCall(s, t0, Call(CreateRequest(tenantId, id, items, overrideLimit), t0))
    requires LegalCalls(Handle(s, CreateRequest(tenantId, id, items, overrideLimit), t0), t0, calls)
    requires AllLeaveAlone(calls, Key(tenantId, id)) && LastAt(t0, calls) <= t1 && t1 - t0 >= 20.0
    requires var s1 := HandleAll(Handle(s, CreateRequest(tenantId, id, items, overrideLimit), t0), calls);
             LegalCalls(Handle(s1, CycleBackRequest(Key(tenantId, id)), t1), t1, more)
    requires AllLeaveAlone(more, Key(tenantId, id)) && LastAt(t1, more) <= t
    ensures var key, s1 := Key(tenantId, id), HandleAll(Handle(s, CreateRequest(tenantId, id, items, overrideLimit), t0), calls);
            var s2 := HandleAll(Handle(s1, CycleBackRequest(key), t1), more);
      && key in Handle(s2, GetRequest(key), t).requisitions
      && var pr := Handle(s2, GetRequest(key), t).requisitions[key];
         && (if t - t1 < 5.0 then pr.status == InNegotiation else Paused(pr))
         && Decisions(s2, key, t, pr, t - t1 >= 5.0)
  {
    hide Handle, HandleAll, LegalCalls, Advance, Stands, LinesOf, CanCall;
    var key := Key(tenantId, id);
    var s1 := HandleAll(Handle(s, CreateRequest(tenantId, id, items, overrideLimit), t0), calls);
    FirstPassByTheClock(s, t0, tenantId, id, items, overrideLimit, calls, t1);
    var back := Handle(s1, CycleBackRequest(key), t1);
    SecondPassByTheClock(back, key, back.requisitions[key], t1, more, t);
  }

  // ---------------------------------------------------------------- listings

  /** The dictionary keys a listing picks: those with the tenant's prefix, and with the status asked for. */
  ghost predicate Listed(prs: map<Key, Requisition>, k: Key, tenantId: Id, filter: Option<Status>) {
    && k in prs && tenantId + ":" <= k.tenantId + ":" + k.requisitionId
    && (filter.Some? ==> prs[k].status == filter.value)
  }

  /** A listing is the rows picked, in insertion order. */
  lemma {:induction false} MatchingExactly(prs: map<Key, Requisition>, keys: seq<Key>, tenantId: Id, filter: Option<Status>)
    returns (at: seq<nat>)
    ensures var out := Matching(prs, keys, tenantId, filter);
      && |at| == |out|
      && (forall k | 0 <= k < |at| ::
            at[k] < |keys| && Listed(prs, keys[at[k]], tenantId, filter) && out[k] == prs[keys[at[k]]])
      && (forall j, k | 0 <= j < k < |at| :: at[j] < at[k])
      && (forall i | 0 <= i < |keys| && Listed(prs, keys[i], tenantId, filter) :: i in at)
  {
    at := [];
    if keys != [] {
      var init := keys[..|keys| - 1];
      at := MatchingExactly(prs, init, tenantId, filter);
      if Listed(prs, keys[|keys| - 1], tenantId, filter) { at := at + [|init|]; }
    }
  }
}
