/**
 * The stub client and the routes over it: a dictionary of requisitions whose
 * rows are rewritten in place, and the list of orders that approvals append
 * to.  Every route's contract equates the new store with the route's function
 * of the old one.
 */
module StubStoreService {
  import opened Basics
  import opened Requisitions

  lemma OneMoreKey(prs: map<Key, Requisition>, keys: seq<Key>, i: nat, tenantId: Id, filter: Option<Status>)
    requires i < |keys|
    ensures Matching(prs, keys[..i + 1], tenantId, filter)
         == var out, k := Matching(prs, keys[..i], tenantId, filter), keys[i];
            if InTenant(k, tenantId) && k in prs && (filter.None? || filter == Some(prs[k].status)) then out + [prs[k]] else out
  {
    assert keys[..i + 1][..i] == keys[..i];
  }

  /** Rows not yet listed do not influence what has been listed. */
  lemma {:induction false} MatchingFrame(prs: map<Key, Requisition>, keys: seq<Key>, k: Key, pr: Requisition,
                                         tenantId: Id, filter: Option<Status>)
    requires k !in keys
    ensures Matching(prs[k := pr], keys, tenantId, filter) == Matching(prs, keys, tenantId, filter)
  {
    if keys != [] { MatchingFrame(prs, keys[..|keys| - 1], k, pr, tenantId, filter); }
  }

  lemma OneMoreLine(items: seq<ItemRequest>, i: nat)
    requires i < |items|
    ensures LineItems(items[..i + 1]) == LineItems(items[..i]) + [ToLine(items[i])]
  {
    var upto := items[..i + 1];
    assert upto[|upto| - 1] == items[i] && upto[..|upto| - 1] == items[..i];
  }

  /** The rows of `tenantId` among the first keys have been advanced, the others not yet. */
  function Swept(prs: map<Key, Requisition>, done: seq<Key>, tenantId: Id, now: real): map<Key, Requisition> {
    map k | k in prs :: if k in done && InTenant(k, tenantId) then Advance(prs[k], now) else prs[k]
  }

  lemma SweepOneMore(prs: map<Key, Requisition>, keys: seq<Key>, i: nat, tenantId: Id, now: real)
    requires NoDuplicates(keys) && i < |keys| && keys[i] in prs
    ensures keys[i] !in keys[..i] && Swept(prs, keys[..i], tenantId, now)[keys[i]] == prs[keys[i]]
    ensures Swept(prs, keys[..i + 1], tenantId, now)
         == if InTenant(keys[i], tenantId)
            then Swept(prs, keys[..i], tenantId, now)[keys[i] := Advance(prs[keys[i]], now)]
            else Swept(prs, keys[..i], tenantId, now)
  {
    assert keys[..i + 1] == keys[..i] + [keys[i]];
  }

  lemma NothingSwept(prs: map<Key, Requisition>, tenantId: Id, filter: Option<Status>, now: real)
    ensures Swept(prs, [], tenantId, now) == prs && Matching(prs, [], tenantId, filter) == []
  {
  }

  lemma AllSwept(prs: map<Key, Requisition>, keys: seq<Key>, tenantId: Id, now: real)
    requires Elements(keys) == prs.Keys
    ensures Swept(prs, keys, tenantId, now).Keys == prs.Keys
    ensures Swept(prs, keys, tenantId, now) == AdvanceTenant(Store(prs, keys, []), tenantId, now).requisitions
  {
    assert forall k | k in prs :: k in Elements(keys);
  }

  class StubStore {
    var requisitions: map<Key, Requisition>
    var keys: seq<Key>
    var orders: seq<PurchaseOrder>

    ghost function View(): Store
      reads this
    {
      Store(requisitions, keys, orders)
    }

    /** The insertion order lists each key of the dictionary once. */
    ghost predicate Valid()
      reads this
    {
      NoDuplicates(keys) && Elements(keys) == requisitions.Keys
    }

    constructor ()
      ensures Valid() && View() == EMPTY
    {
      requisitions, keys, orders := map[], [], [];
    }

    method BuildLines(items: seq<ItemRequest>) returns (lines: seq<LineItem>)
      ensures lines == LineItems(items) && |lines| == |items|
    {
      lines := [];
      for i := 0 to |items|
        invariant lines == LineItems(items[..i]) && |lines| == i
      {
        OneMoreLine(items, i);
        var it := items[i];
        var price := if it.estimatedPrice.Some? then it.estimatedPrice.value else 0.0;
        var quantity := if it.quantity.Some? then it.quantity.value else 1;
        var line := LineItem(it.itemId, quantity, price, price * quantity as real);
        assert line == ToLine(it);
        lines := lines + [line];
      }
      assert items[..|items|] == items;
    }

    method CreatePr(tenantId: Id, id: Id, items: seq<ItemRequest>, overrideLimit: real, now: real) returns (pr: Requisition)
      requires Valid() && Key(tenantId, id) !in requisitions
      modifies this
      ensures Valid() && View() == Handle(old(View()), CreateRequest(tenantId, id, items, overrideLimit), now)
      ensures requisitions[Key(tenantId, id)] == pr && pr.status == New && |pr.items| == |items|
      ensures Total(pr.items) == EstimatedCost(items) && (overrideLimit == 0.0 ==> pr.budgetLimit == Total(pr.items))
    {
      assert Key(tenantId, id) !in Elements(keys);
      var computed := EstimatedCost(items);
      var lines := BuildLines(items);
      LineItemsTotal(items);
      pr := Requisition(id, tenantId, New, lines, if overrideLimit != 0.0 then overrideLimit else computed,
                        now, 0, map[], None, items, overrideLimit);
      requisitions := requisitions[Key(tenantId, id) := pr];
      keys := keys + [Key(tenantId, id)];
      assert Elements(keys) == Elements(old(keys)) + {Key(tenantId, id)};
    }

    /** Reading a stored requisition advances it in place. */
    method GetPr(key: Key, now: real) returns (pr: Option<Requisition>)
      requires Valid()
      modifies `requisitions
      ensures Valid() && View() == Touch(old(View()), key, now) && pr == Found(old(View()), key, now)
      ensures key in old(requisitions) ==> key in requisitions && pr == Some(requisitions[key])
      ensures key !in old(requisitions) ==> requisitions == old(requisitions) && (pr.Some? <==> key.requisitionId == "req-stub-001")
    {
      if key in requisitions {
        requisitions := requisitions[key := Advance(requisitions[key], now)];
        pr := Some(requisitions[key]);
      } else if key.requisitionId == FIXTURE.requisitionId {
        pr := Some(FIXTURE);
      } else {
        pr := None;
      }
    }

    method ListPrs(tenantId: Id, filter: Option<Status>, now: real) returns (out: seq<Requisition>)
      requires Valid()
      modifies `requisitions
      ensures Valid() && View() == Handle(old(View()), ListRequest(tenantId, filter), now)
      ensures out == Matching(requisitions, keys, tenantId, filter)
    {
      hide Advance, Matching, Swept, InTenant;
      ghost var before := requisitions;
      NothingSwept(before, tenantId, filter, now);
      out := [];
      for i := 0 to |keys|
        invariant requisitions == Swept(before, keys[..i], tenantId, now)
        invariant out == Matching(requisitions, keys[..i], tenantId, filter)
        invariant forall j | 0 <= j < |keys| :: keys[j] in requisitions && keys[j] in before
      {
        var k := keys[i];
        SweepOneMore(before, keys, i, tenantId, now);
        if InTenant(k, tenantId) {
          var pr := Advance(requisitions[k], now);
          MatchingFrame(requisitions, keys[..i], k, pr, tenantId, filter);
          requisitions := requisitions[k := pr];
          if filter.None? || filter == Some(pr.status) {
            out := out + [pr];
          }
        }
        OneMoreKey(requisitions, keys, i, tenantId, filter);
      }
      assert keys[..|keys|] == keys;
      AllSwept(before, keys, tenantId, now);
    }

    // -------------------------------------------------------------- the client's decisions

    method ApprovePr(key: Key, now: real)
      requires Valid()
      modifies `requisitions, `orders
      ensures Valid() && View() == Decide(old(View()), key, Approve(now))
    {
      if key in requisitions {
        var pr := requisitions[key];
        requisitions := requisitions[key := pr.(status := Completed, graphNodes := pr.graphNodes["award" := "completed"])];
        orders := orders + [BuildOrder(key.tenantId, requisitions[key])];
      }
    }

    /** `reject_pr` and `cancel_pr` do the same to the stored row. */
    method MarkCancelled(key: Key)
      requires Valid()
      modifies `requisitions
      ensures Valid()
      ensures forall now :: View() == Decide(old(View()), key, Reject(now)) == Decide(old(View()), key, Cancel(now))
    {
      if key in requisitions {
        requisitions := requisitions[key := requisitions[key].(status := Cancelled)];
      }
    }

    method CycleBackPr(key: Key, now: real) returns (status: Status)
      requires Valid()
      modifies `requisitions
      ensures Valid() && View() == Decide(old(View()), key, SendBack(now))
      ensures status == if key in requisitions then requisitions[key].status else RequiresAttention
    {
      status := RequiresAttention;
      if key in requisitions {
        var pr := requisitions[key];
        if pr.cycleBacks >= 1 {
          pr := pr.(status := RequiresAttention);
        } else {
          pr := pr.(cycleBacks := pr.cycleBacks + 1, status := InNegotiation, createdAt := now - 15.0);
        }
        pr := pr.(approvalContext := None);
        requisitions := requisitions[key := pr];
        status := pr.status;
      }
    }

    // -------------------------------------------------------------- routes

    method ApproveRoute(key: Key, now: real) returns (reply: Reply)
      requires Valid()
      modifies this
      ensures Valid() && View() == Handle(old(View()), ApproveRequest(key), now)
      ensures reply.Accepted? <==> IsPending(old(View()), key, now)
      ensures reply == NotFound <==> Found(old(View()), key, now).None?
      ensures reply.Accepted? && key in requisitions ==> requisitions[key].status == Completed && |orders| == |old(orders)| + 1
      ensures !reply.Accepted? ==> orders == old(orders)
      ensures key in old(requisitions) ==> (reply.Accepted? <==> |orders| == |old(orders)| + 1)
    {
      var pr := GetPr(key, now);
      if pr.None? { return NotFound; }
      if pr.value.status != PendingHumanApproval { return NotPending; }
      ApprovePr(key, now);
      reply := Accepted(Completed);
    }

    method RejectRoute(key: Key, now: real) returns (reply: Reply)
      requires Valid()
      modifies this
      ensures Valid() && View() == Handle(old(View()), RejectRequest(key), now)
      ensures reply == (if Found(old(View()), key, now).None? then NotFound
                        else if IsPending(old(View()), key, now) then Accepted(Cancelled) else NotPending)
    {
      var pr := GetPr(key, now);
      if pr.None? { return NotFound; }
      if pr.value.status != PendingHumanApproval { return NotPending; }
      ghost var read := View();
      MarkCancelled(key);
      assert View() == Decide(read, key, Reject(now));
      reply := Accepted(Cancelled);
    }

    method CycleBackRoute(key: Key, now: real) returns (reply: Reply)
      requires Valid()
      modifies this
      ensures Valid() && View() == Handle(old(View()), CycleBackRequest(key), now)
      ensures reply.Accepted? <==> IsPending(old(View()), key, now)
      ensures reply.Accepted? && key in requisitions ==> reply.status == requisitions[key].status
      ensures reply == NotFound <==> Found(old(View()), key, now).None?
    {
      var pr := GetPr(key, now);
      if pr.None? { return NotFound; }
      if pr.value.status != PendingHumanApproval { return NotPending; }
      var status := CycleBackPr(key, now);
      reply := Accepted(status);
    }

    method CancelRoute(key: Key, confirm: bool, now: real) returns (reply: Reply)
      requires Valid()
      modifies this
      ensures Valid() && View() == Handle(old(View()), CancelRequest(key, confirm), now)
      ensures reply == (if Found(old(View()), key, now).None? then NotFound
                        else if MayCancel(old(View()), key, confirm, now) then Accepted(Cancelled) else NeedsConfirmation)
    {
      var pr := GetPr(key, now);
      if pr.None? { return NotFound; }
      if (pr.value.status == InNegotiation || pr.value.status == Active) && !confirm { return NeedsConfirmation; }
      ghost var read := View();
      MarkCancelled(key);
      assert View() == Decide(read, key, Cancel(now));
      reply := Accepted(Cancelled);
    }
  }
}
