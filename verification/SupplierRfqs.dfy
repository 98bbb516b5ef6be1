/**
 * Everything one supplier was asked, answered and told, joined per negotiation
 * from the communications and bids tables and listed latest first.
 */
module SupplierRfqs {
  import opened Basics

  datatype Stamp = NoStamp | Number(value: real) | Text(text: string)

  datatype CommRow = CommRow(communicationId: Id, supplierId: Id, negotiationId: Id, kind: string, createdAt: Stamp)

  datatype BidRow = BidRow(bidId: Id, negotiationId: Id, supplierId: Id, createdAt: Stamp, pricedAt: Stamp)

  datatype NegotiationRow = NegotiationRow(status: string, quadrant: string)

  datatype Entry = Entry(negotiationId: Id, invitations: seq<CommRow>, feedback: seq<CommRow>,
                         response: Option<BidRow>, negotiation: Option<NegotiationRow>)

  datatype Slot = Invitation | Feedback | Neither

  function SlotOf(c: CommRow): Slot {
    if c.kind == "BID_INVITATION" || c.kind == "AUCTION_INVITATION" then Invitation
    else if c.kind == "AWARD_NOTIFICATION" || c.kind == "REJECTION_NOTIFICATION" || c.kind == "AUCTION_ROUND_FEEDBACK"
    then Feedback else Neither
  }

  // ---------------------------------------------------------------- selecting rows

  function OfSupplier(comms: seq<CommRow>, supplierId: Id): seq<CommRow> {
    if comms == [] then [] else
      var out := OfSupplier(comms[..|comms| - 1], supplierId);
      if comms[|comms| - 1].supplierId == supplierId then out + [comms[|comms| - 1]] else out
  }

  /** The rows of one negotiation and slot, in scan order. */
  function InSlot(comms: seq<CommRow>, n: Id, slot: Slot): seq<CommRow> {
    if comms == [] then [] else
      var out := InSlot(comms[..|comms| - 1], n, slot);
      var c := comms[|comms| - 1];
      if c.negotiationId == n && SlotOf(c) == slot then out + [c] else out
  }

  /** The last bid of the supplier for a negotiation. */
  function Response(bids: seq<BidRow>, supplierId: Id, n: Id): Option<BidRow> {
    if bids == [] then None else
      var b := bids[|bids| - 1];
      if b.supplierId == supplierId && b.negotiationId == n then Some(b)
      else Response(bids[..|bids| - 1], supplierId, n)
  }

  function Extended(ids: seq<Id>, n: Id): seq<Id> {
    if n in ids then ids else ids + [n]
  }

  /** The negotiations of the communications, in the order they first appear. */
  function InvitedIds(comms: seq<CommRow>): seq<Id> {
    if comms == [] then [] else
      var out := InvitedIds(comms[..|comms| - 1]);
      var n := comms[|comms| - 1].negotiationId;
      if Truthy(n) then Extended(out, n) else out
  }

  function BidIds(bids: seq<BidRow>, supplierId: Id): seq<Id> {
    if bids == [] then [] else
      var out := BidIds(bids[..|bids| - 1], supplierId);
      if bids[|bids| - 1].supplierId == supplierId then Extended(out, bids[|bids| - 1].negotiationId) else out
  }

  function ExtendedAll(ids: seq<Id>, more: seq<Id>): seq<Id> {
    if more == [] then ids else Extended(ExtendedAll(ids, more[..|more| - 1]), more[|more| - 1])
  }

  /** An entry as the scan of the communications leaves it. */
  function Unanswered(comms: seq<CommRow>, n: Id): Entry {
    Entry(n, if Truthy(n) then InSlot(comms, n, Invitation) else [], if Truthy(n) then InSlot(comms, n, Feedback) else [], None, None)
  }

  function EntryFor(comms: seq<CommRow>, bids: seq<BidRow>, negs: map<Id, NegotiationRow>, supplierId: Id, n: Id): Entry {
    Unanswered(comms, n).(response := Response(bids, supplierId, n), negotiation := if n in negs then Some(negs[n]) else None)
  }

  function EntriesFor(comms: seq<CommRow>, bids: seq<BidRow>, negs: map<Id, NegotiationRow>, supplierId: Id, ids: seq<Id>): seq<Entry> {
    if ids == [] then [] else
      EntriesFor(comms, bids, negs, supplierId, ids[..|ids| - 1]) + [EntryFor(comms, bids, negs, supplierId, ids[|ids| - 1])]
  }

  // ---------------------------------------------------------------- ordering

  function Seconds(s: Stamp): real {
    if s.Number? then s.value else 0.0
  }

  predicate Present(s: Stamp) {
    (s.Number? && s.value != 0.0) || (s.Text? && s.text != "")
  }

  function Max(a: real, b: real): real {
    if a < b then b else a
  }

  function LatestOf(rows: seq<CommRow>): real {
    if rows == [] then 0.0 else Max(LatestOf(rows[..|rows| - 1]), Seconds(rows[|rows| - 1].createdAt))
  }

  function LatestTs(e: Entry): real {
    var t := Max(LatestOf(e.invitations), LatestOf(e.feedback));
    if e.response.Some? then
      var b := e.response.value;
      Max(t, Seconds(if Present(b.createdAt) then b.createdAt else b.pricedAt))
    else t
  }

  /** Stable insertion behind every entry at least as late. */
  function Insert(e: Entry, sorted: seq<Entry>): seq<Entry> {
    if sorted == [] then [e]
    else if LatestTs(sorted[|sorted| - 1]) >= LatestTs(e) then sorted + [e]
    else Insert(e, sorted[..|sorted| - 1]) + [sorted[|sorted| - 1]]
  }

  function SortByLatest(es: seq<Entry>): seq<Entry> {
    if es == [] then [] else Insert(es[|es| - 1], SortByLatest(es[..|es| - 1]))
  }

  // ---------------------------------------------------------------- the join

  function Ids(comms: seq<CommRow>, bids: seq<BidRow>, supplierId: Id): seq<Id> {
    ExtendedAll(InvitedIds(comms), BidIds(bids, supplierId))
  }

  function Rfqs(allComms: seq<CommRow>, bids: seq<BidRow>, negs: map<Id, NegotiationRow>, supplierId: Id): seq<Entry> {
    var comms := OfSupplier(allComms, supplierId);
    SortByLatest(EntriesFor(comms, bids, negs, supplierId, Ids(comms, bids, supplierId)))
  }

  /** What the dictionary being filled holds for a negotiation after some of the rows. */
  ghost predicate Filled(entries: map<Id, Entry>, ids: seq<Id>, comms: seq<CommRow>) {
    && (forall n :: n in entries <==> n in ids)
    && (forall n | n in entries :: entries[n] == Unanswered(comms, n))
  }

  lemma OneMoreComm(comms: seq<CommRow>, i: nat)
    requires i < |comms|
    ensures InvitedIds(comms[..i + 1])
         == if Truthy(comms[i].negotiationId) then Extended(InvitedIds(comms[..i]), comms[i].negotiationId)
            else InvitedIds(comms[..i])
    ensures forall n, slot | n != comms[i].negotiationId || slot != SlotOf(comms[i]) ::
              InSlot(comms[..i + 1], n, slot) == InSlot(comms[..i], n, slot)
    ensures InSlot(comms[..i + 1], comms[i].negotiationId, SlotOf(comms[i]))
         == InSlot(comms[..i], comms[i].negotiationId, SlotOf(comms[i])) + [comms[i]]
  {
    assert comms[..i + 1][..i] == comms[..i];
  }

  lemma {:induction false} UninvitedIsEmpty(comms: seq<CommRow>, n: Id, slot: Slot)
    requires Truthy(n) && n !in InvitedIds(comms)
    ensures InSlot(comms, n, slot) == []
  {
    if comms != [] { UninvitedIsEmpty(comms[..|comms| - 1], n, slot); }
  }

  function Filed(entry: Entry, c: CommRow): Entry {
    match SlotOf(c)
    case Invitation => entry.(invitations := entry.invitations + [c])
    case Feedback => entry.(feedback := entry.feedback + [c])
    case Neither => entry
  }

  /** One more communication: only the entry of its own negotiation changes, and only in its slot. */
  lemma OneMoreEntry(comms: seq<CommRow>, i: nat)
    requires i < |comms|
    ensures var c := comms[i]; var was := Unanswered(comms[..i], c.negotiationId);
      && (Truthy(c.negotiationId) ==> Unanswered(comms[..i + 1], c.negotiationId) == Filed(was, c))
      && (forall n | n != c.negotiationId || !Truthy(n) :: Unanswered(comms[..i + 1], n) == Unanswered(comms[..i], n))
  {
    hide InSlot, SlotOf;
    OneMoreComm(comms, i);
  }

  method CollectComms(comms: seq<CommRow>) returns (entries: map<Id, Entry>, ids: seq<Id>)
    ensures ids == InvitedIds(comms) && Filled(entries, ids, comms)
  {
    hide InSlot, SlotOf, Unanswered;
    entries, ids := map[], [];
    for i := 0 to |comms|
      invariant ids == InvitedIds(comms[..i]) && Filled(entries, ids, comms[..i])
    {
      var c := comms[i];
      OneMoreComm(comms, i);
      OneMoreEntry(comms, i);
      if Truthy(c.negotiationId) {
        if c.negotiationId !in entries {
          UninvitedEntry(comms[..i], c.negotiationId);
          entries := entries[c.negotiationId := Entry(c.negotiationId, [], [], None, None)];
          ids := ids + [c.negotiationId];
        }
        var entry := entries[c.negotiationId];
        if SlotOf(c) == Invitation {
          entries := entries[c.negotiationId := entry.(invitations := entry.invitations + [c])];
        } else if SlotOf(c) == Feedback {
          entries := entries[c.negotiationId := entry.(feedback := entry.feedback + [c])];
        }
      }
    }
    assert comms[..|comms|] == comms;
  }

  /** The last bid of a negotiation overwrites earlier ones; the key keeps its first position. */
  method LastBids(bids: seq<BidRow>, supplierId: Id) returns (byNegotiation: map<Id, BidRow>, ids: seq<Id>)
    ensures ids == BidIds(bids, supplierId)
    ensures forall n :: n in byNegotiation <==> n in ids
    ensures forall n :: Response(bids, supplierId, n) == if n in byNegotiation then Some(byNegotiation[n]) else None
  {
    byNegotiation, ids := map[], [];
    for i := 0 to |bids|
      invariant ids == BidIds(bids[..i], supplierId)
      invariant forall n :: n in byNegotiation <==> n in ids
      invariant forall n :: Response(bids[..i], supplierId, n) == if n in byNegotiation then Some(byNegotiation[n]) else None
    {
      var b := bids[i];
      assert bids[..i + 1][..i] == bids[..i];
      if b.supplierId == supplierId {
        ids := if b.negotiationId in byNegotiation then ids else ids + [b.negotiationId];
        byNegotiation := byNegotiation[b.negotiationId := b];
      }
    }
    assert bids[..|bids|] == bids;
  }

  lemma UninvitedEntry(comms: seq<CommRow>, n: Id)
    requires n !in InvitedIds(comms)
    ensures Unanswered(comms, n) == Entry(n, [], [], None, None)
  {
    if Truthy(n) {
      UninvitedIsEmpty(comms, n, Invitation);
      UninvitedIsEmpty(comms, n, Feedback);
    }
  }

  /** A bid can stand without any invitation on record: it gets an entry too. */
  method AddBidders(comms: seq<CommRow>, bidIds: seq<Id>, invited: map<Id, Entry>, invitedIds: seq<Id>)
    returns (entries: map<Id, Entry>, ids: seq<Id>)
    requires invitedIds == InvitedIds(comms) && Filled(invited, invitedIds, comms)
    ensures ids == ExtendedAll(InvitedIds(comms), bidIds) && Filled(entries, ids, comms)
  {
    hide InvitedIds, Unanswered;
    entries, ids := invited, invitedIds;
    for i := 0 to |bidIds|
      invariant ids == ExtendedAll(invitedIds, bidIds[..i]) && Filled(entries, ids, comms)
      invariant forall n | n in invitedIds :: n in ids
    {
      assert bidIds[..i + 1][..i] == bidIds[..i];
      var n := bidIds[i];
      if n !in entries {
        UninvitedEntry(comms, n);
        entries := entries[n := Entry(n, [], [], None, None)];
        ids := ids + [n];
      }
    }
    assert bidIds[..|bidIds|] == bidIds;
  }

  method GetSupplierRfqs(allComms: seq<CommRow>, bids: seq<BidRow>, negs: map<Id, NegotiationRow>, supplierId: Id)
    returns (result: seq<Entry>)
    ensures result == Rfqs(allComms, bids, negs, supplierId)
  {
    hide InvitedIds, ExtendedAll, Unanswered, Response, SortByLatest, BidIds, OfSupplier;
    var comms := OfSupplier(allComms, supplierId);
    var byNegotiation, bidIds := LastBids(bids, supplierId);
    var invited, invitedIds := CollectComms(comms);
    var entries, ids := AddBidders(comms, bidIds, invited, invitedIds);
    var listed: seq<Entry> := [];
    for i := 0 to |ids|
      invariant listed == EntriesFor(comms, bids, negs, supplierId, ids[..i])
    {
      assert ids[..i + 1][..i] == ids[..i] && ids[i] in ids;
      var n := ids[i];
      var response := if n in byNegotiation then Some(byNegotiation[n]) else None;
      var neg := if n in negs then Some(negs[n]) else None;
      listed := listed + [entries[n].(response := response, negotiation := neg)];
    }
    assert ids[..|ids|] == ids;
    result := SortByLatest(listed);
  }

  // ---------------------------------------------------------------- sorting

  ghost predicate LatestFirst(es: seq<Entry>) {
    forall i, j | 0 <= i < j < |es| :: LatestTs(es[i]) >= LatestTs(es[j])
  }

  /** The entries with one timestamp, in order. */
  ghost function AtTime(es: seq<Entry>, t: real): seq<Entry> {
    if es == [] then [] else
      var out := AtTime(es[..|es| - 1], t);
      if LatestTs(es[|es| - 1]) == t then out + [es[|es| - 1]] else out
  }

  lemma AtTimeOneMore(es: seq<Entry>, e: Entry, t: real)
    ensures AtTime(es + [e], t) == if LatestTs(e) == t then AtTime(es, t) + [e] else AtTime(es, t)
  {
    assert (es + [e])[..|es|] == es;
  }

  lemma LatestFirstOneMore(es: seq<Entry>, e: Entry)
    requires LatestFirst(es) && forall x | x in es :: LatestTs(x) >= LatestTs(e)
    ensures LatestFirst(es + [e])
  {
  }

  lemma {:induction false} InsertMembers(e: Entry, es: seq<Entry>)
    ensures multiset(Insert(e, es)) == multiset(es) + multiset{e}
    ensures forall x :: x in Insert(e, es) <==> x in es || x == e
  {
    hide LatestTs;
    if es != [] {
      InsertMembers(e, es[..|es| - 1]);
      assert es == es[..|es| - 1] + [es[|es| - 1]];
    }
  }

  lemma {:induction false} InsertSorts(e: Entry, es: seq<Entry>)
    requires LatestFirst(es)
    ensures LatestFirst(Insert(e, es))
  {
    hide LatestTs;
    if es != [] {
      var init, last := es[..|es| - 1], es[|es| - 1];
      assert es == init + [last];
      if LatestTs(last) >= LatestTs(e) {
        assert forall x | x in es :: LatestTs(x) >= LatestTs(e);
        LatestFirstOneMore(es, e);
      } else {
        InsertSorts(e, init);
        InsertMembers(e, init);
        assert forall x | x in init :: LatestTs(x) >= LatestTs(last);
        LatestFirstOneMore(Insert(e, init), last);
      }
    }
  }

  lemma {:induction false} InsertIsStable(e: Entry, es: seq<Entry>, t: real)
    requires LatestFirst(es)
    ensures AtTime(Insert(e, es), t) == AtTime(es + [e], t)
  {
    hide LatestTs;
    AtTimeOneMore(es, e, t);
    if es != [] {
      var init, last := es[..|es| - 1], es[|es| - 1];
      if LatestTs(last) < LatestTs(e) {
        InsertIsStable(e, init, t);
        AtTimeOneMore(init, e, t);
        AtTimeOneMore(Insert(e, init), last, t);
      }
    }
  }

  /** The list is a latest-first, stable permutation. */
  lemma {:induction false} SortIsStable(es: seq<Entry>, t: real)
    ensures LatestFirst(SortByLatest(es)) && multiset(SortByLatest(es)) == multiset(es)
    ensures AtTime(SortByLatest(es), t) == AtTime(es, t)
  {
    hide LatestTs, Insert;
    if es != [] {
      var init, e := es[..|es| - 1], es[|es| - 1];
      assert es == init + [e];
      SortIsStable(init, t);
      InsertSorts(e, SortByLatest(init));
      InsertMembers(e, SortByLatest(init));
      InsertIsStable(e, SortByLatest(init), t);
      AtTimeOneMore(SortByLatest(init), e, t);
      AtTimeOneMore(init, e, t);
    }
  }

  // ---------------------------------------------------------------- main results

  lemma {:induction false} InvitedIdsExact(comms: seq<CommRow>)
    ensures NoDuplicates(InvitedIds(comms))
    ensures forall n :: n in InvitedIds(comms) <==> Truthy(n) && exists c | c in comms :: c.negotiationId == n
  {
    if comms != [] {
      var init, c := comms[..|comms| - 1], comms[|comms| - 1];
      assert comms == init + [c];
      InvitedIdsExact(init);
      forall n | n in InvitedIds(comms) ensures exists d | d in comms :: d.negotiationId == n {
        if n in InvitedIds(init) {
          var d :| d in init && d.negotiationId == n;
          assert d in comms;
        } else {
          assert c in comms;
        }
      }
    }
  }

  lemma {:induction false} BidIdsExact(bids: seq<BidRow>, supplierId: Id)
    ensures forall n :: n in BidIds(bids, supplierId) <==> exists b | b in bids :: b.supplierId == supplierId && b.negotiationId == n
  {
    if bids != [] {
      var init, b := bids[..|bids| - 1], bids[|bids| - 1];
      assert bids == init + [b];
      BidIdsExact(init, supplierId);
      forall n | n in BidIds(bids, supplierId) ensures exists d | d in bids :: d.supplierId == supplierId && d.negotiationId == n {
        if n in BidIds(init, supplierId) {
          var d :| d in init && d.supplierId == supplierId && d.negotiationId == n;
          assert d in bids;
        } else {
          assert b in bids;
        }
      }
    }
  }

  lemma {:induction false} ExtendedAllExact(ids: seq<Id>, more: seq<Id>)
    requires NoDuplicates(ids)
    ensures NoDuplicates(ExtendedAll(ids, more))
    ensures forall n :: n in ExtendedAll(ids, more) <==> n in ids || n in more
  {
    if more != [] {
      ExtendedAllExact(ids, more[..|more| - 1]);
      assert more == more[..|more| - 1] + [more[|more| - 1]];
    }
  }

  /** The supplier was written to about the negotiation, or bid on it. */
  ghost predicate Concerned(comms: seq<CommRow>, bids: seq<BidRow>, supplierId: Id, n: Id) {
    || (Truthy(n) && exists c | c in comms :: c.negotiationId == n)
    || (exists b | b in bids :: b.supplierId == supplierId && b.negotiationId == n)
  }

  ghost predicate Listed(result: seq<Entry>, n: Id) {
    exists e | e in result :: e.negotiationId == n
  }

  /** One entry per negotiation the supplier was written to about, or bid on; no others. */
  lemma OneEntryPerNegotiation(comms: seq<CommRow>, bids: seq<BidRow>, supplierId: Id)
    ensures NoDuplicates(Ids(comms, bids, supplierId))
    ensures forall n :: n in Ids(comms, bids, supplierId) <==> Concerned(comms, bids, supplierId, n)
  {
    InvitedIdsExact(comms);
    BidIdsExact(bids, supplierId);
    ExtendedAllExact(InvitedIds(comms), BidIds(bids, supplierId));
  }

  /** All rows of a slot that name a negotiation, in scan order. */
  function Addressed(comms: seq<CommRow>, slot: Slot): seq<CommRow> {
    if comms == [] then [] else
      var out := Addressed(comms[..|comms| - 1], slot);
      var c := comms[|comms| - 1];
      if Truthy(c.negotiationId) && SlotOf(c) == slot then out + [c] else out
  }

  function AllOf(comms: seq<CommRow>, ids: seq<Id>, slot: Slot): seq<CommRow> {
    if ids == [] then [] else
      AllOf(comms, ids[..|ids| - 1], slot) + (if Truthy(ids[|ids| - 1]) then InSlot(comms, ids[|ids| - 1], slot) else [])
  }

  lemma InSlotOneMore(comms: seq<CommRow>, c: CommRow, n: Id, slot: Slot)
    ensures InSlot(comms + [c], n, slot)
         == InSlot(comms, n, slot) + if c.negotiationId == n && SlotOf(c) == slot then [c] else []
  {
    assert (comms + [c])[..|comms|] == comms;
  }

  lemma {:induction false} AllOfOneMore(comms: seq<CommRow>, c: CommRow, ids: seq<Id>, slot: Slot)
    requires NoDuplicates(ids)
    ensures multiset(AllOf(comms + [c], ids, slot)) == multiset(AllOf(comms, ids, slot)) +
              (if Truthy(c.negotiationId) && c.negotiationId in ids && SlotOf(c) == slot then multiset{c} else multiset{})
  {
    hide SlotOf, InSlot;
    if ids != [] {
      var init, n := ids[..|ids| - 1], ids[|ids| - 1];
      assert ids == init + [n];
      AllOfOneMore(comms, c, init, slot);
      InSlotOneMore(comms, c, n, slot);
    }
  }

  lemma {:induction false} NoRowsNoEntries(ids: seq<Id>, slot: Slot)
    ensures AllOf([], ids, slot) == []
  {
    if ids != [] { NoRowsNoEntries(ids[..|ids| - 1], slot); }
  }

  /** Every invitation (or feedback) that names a negotiation lands in the entries exactly once. */
  lemma {:induction false} EveryRowLandsOnce(comms: seq<CommRow>, ids: seq<Id>, slot: Slot)
    requires NoDuplicates(ids)
    requires forall c | c in comms && Truthy(c.negotiationId) :: c.negotiationId in ids
    ensures multiset(AllOf(comms, ids, slot)) == multiset(Addressed(comms, slot))
  {
    if comms == [] {
      NoRowsNoEntries(ids, slot);
    } else {
      var init, c := comms[..|comms| - 1], comms[|comms| - 1];
      assert comms == init + [c];
      EveryRowLandsOnce(init, ids, slot);
      AllOfOneMore(init, c, ids, slot);
    }
  }

  /** The response is a bid of the supplier for the negotiation, and no later bid is. */
  lemma {:induction false} ResponseIsLast(bids: seq<BidRow>, supplierId: Id, n: Id)
    ensures Response(bids, supplierId, n).None? <==>
              forall b | b in bids :: !(b.supplierId == supplierId && b.negotiationId == n)
    ensures Response(bids, supplierId, n).Some? ==>
              exists i | 0 <= i < |bids| ::
                && bids[i] == Response(bids, supplierId, n).value
                && bids[i].supplierId == supplierId && bids[i].negotiationId == n
                && forall j | i < j < |bids| :: !(bids[j].supplierId == supplierId && bids[j].negotiationId == n)
  {
    if bids != [] {
      var init, b := bids[..|bids| - 1], bids[|bids| - 1];
      assert bids == init + [b];
      ResponseIsLast(init, supplierId, n);
      if !(b.supplierId == supplierId && b.negotiationId == n) && Response(init, supplierId, n).Some? {
        var i :| 0 <= i < |init| && init[i] == Response(init, supplierId, n).value
                 && init[i].supplierId == supplierId && init[i].negotiationId == n
                 && forall j | i < j < |init| :: !(init[j].supplierId == supplierId && init[j].negotiationId == n);
        assert bids[i] == init[i];
      }
    }
  }

  lemma {:induction false} EntriesInOrder(comms: seq<CommRow>, bids: seq<BidRow>, negs: map<Id, NegotiationRow>, supplierId: Id, ids: seq<Id>)
    ensures var es := EntriesFor(comms, bids, negs, supplierId, ids);
      |es| == |ids| && forall i | 0 <= i < |es| ::
        es[i] == EntryFor(comms, bids, negs, supplierId, ids[i]) && es[i].negotiationId == ids[i]
  {
    hide InSlot, Response;
    if ids != [] { EntriesInOrder(comms, bids, negs, supplierId, ids[..|ids| - 1]); }
  }

  /**
   * The route's answer: latest first; each listed entry is the one of its
   * negotiation; every negotiation in the union of the two sources is listed,
   * and all invitations and feedback are in it exactly once.
   */
  lemma RfqJoin(allComms: seq<CommRow>, bids: seq<BidRow>, negs: map<Id, NegotiationRow>, supplierId: Id)
    ensures var comms, result := OfSupplier(allComms, supplierId), Rfqs(allComms, bids, negs, supplierId);
      && LatestFirst(result)
      && (forall e | e in result :: e == EntryFor(comms, bids, negs, supplierId, e.negotiationId))
      && (forall i, j | 0 <= i < j < |result| :: result[i].negotiationId != result[j].negotiationId)
      && (forall n :: Listed(result, n) <==> Concerned(comms, bids, supplierId, n))
  {
    hide LatestTs, LatestFirst, Concerned, SortByLatest, EntryFor, EntriesFor, Ids, OfSupplier, InSlot, Response;
    var comms := OfSupplier(allComms, supplierId);
    var ids := Ids(comms, bids, supplierId);
    var es, result := EntriesFor(comms, bids, negs, supplierId, ids), Rfqs(allComms, bids, negs, supplierId);
    OneEntryPerNegotiation(comms, bids, supplierId);
    EntriesInOrder(comms, bids, negs, supplierId, ids);
    SortIsStable(es, 0.0);
    ListedOnce(result, es);
    forall n ensures Listed(result, n) <==> n in ids {
      if n in ids {
        var i :| 0 <= i < |ids| && ids[i] == n;
        assert es[i] in es;
        assert es[i] in result;
      }
    }
  }

  /** A permutation of entries with distinct negotiations has the same, still distinct. */
  lemma ListedOnce(a: seq<Entry>, b: seq<Entry>)
    requires multiset(a) == multiset(b)
    requires forall i, j | 0 <= i < j < |b| :: b[i].negotiationId != b[j].negotiationId
    ensures forall e :: e in a <==> e in b
    ensures forall i, j | 0 <= i < j < |a| :: a[i].negotiationId != a[j].negotiationId
  {
    forall e ensures e in a <==> e in b {
      assert e in a <==> e in multiset(a);
      assert e in b <==> e in multiset(b);
    }
    forall i, j | 0 <= i < j < |a| ensures a[i].negotiationId != a[j].negotiationId {
      assert a[i] in b && a[j] in b;
      if a[i] == a[j] {
        Repeated(a, i, j);
        Single(b, a[i]);
      }
    }
  }

  lemma Repeated(es: seq<Entry>, i: nat, j: nat)
    requires i < j < |es| && es[i] == es[j]
    ensures multiset(es)[es[i]] >= 2
  {
    assert es == es[..j] + es[j..];
    assert es[i] in es[..j] && es[j] in es[j..];
  }

  lemma {:induction false} Single(es: seq<Entry>, e: Entry)
    requires forall i, j | 0 <= i < j < |es| :: es[i].negotiationId != es[j].negotiationId
    ensures multiset(es)[e] <= 1
  {
    if es != [] {
      var init, last := es[..|es| - 1], es[|es| - 1];
      assert es == init + [last];
      Single(init, e);
    }
  }

  function RowsIn(e: Entry, slot: Slot): seq<CommRow> {
    match slot
    case Invitation => e.invitations
    case Feedback => e.feedback
    case Neither => []
  }

  /** All invitations (or all feedback) of a list of entries. */
  function Gathered(es: seq<Entry>, slot: Slot): seq<CommRow> {
    if es == [] then [] else Gathered(es[..|es| - 1], slot) + RowsIn(es[|es| - 1], slot)
  }

  lemma GatheredOneMore(es: seq<Entry>, e: Entry, slot: Slot)
    ensures Gathered(es + [e], slot) == Gathered(es, slot) + RowsIn(e, slot)
  {
    assert (es + [e])[..|es|] == es;
  }

  lemma {:induction false} InsertGathers(e: Entry, es: seq<Entry>, slot: Slot)
    ensures multiset(Gathered(Insert(e, es), slot)) == multiset(Gathered(es, slot)) + multiset(RowsIn(e, slot))
  {
    hide LatestTs, RowsIn, Gathered;
    GatheredOneMore(es, e, slot);
    if es == [] {
      assert [] + [e] == [e];
    } else {
      var init, last := es[..|es| - 1], es[|es| - 1];
      assert es == init + [last];
      InsertGathers(e, init, slot);
      GatheredOneMore(init, last, slot);
      GatheredOneMore(Insert(e, init), last, slot);
    }
  }

  lemma {:induction false} SortGathers(es: seq<Entry>, slot: Slot)
    ensures multiset(Gathered(SortByLatest(es), slot)) == multiset(Gathered(es, slot))
  {
    hide LatestTs, Insert, RowsIn;
    if es != [] {
      SortGathers(es[..|es| - 1], slot);
      InsertGathers(es[|es| - 1], SortByLatest(es[..|es| - 1]), slot);
    }
  }

  lemma {:induction false} EntriesGather(comms: seq<CommRow>, bids: seq<BidRow>, negs: map<Id, NegotiationRow>, supplierId: Id,
                                         ids: seq<Id>, slot: Slot)
    requires slot != Neither
    ensures Gathered(EntriesFor(comms, bids, negs, supplierId, ids), slot) == AllOf(comms, ids, slot)
  {
    hide InSlot, Response;
    if ids != [] {
      var init := ids[..|ids| - 1];
      EntriesGather(comms, bids, negs, supplierId, init, slot);
      GatheredOneMore(EntriesFor(comms, bids, negs, supplierId, init), EntryFor(comms, bids, negs, supplierId, ids[|ids| - 1]), slot);
    }
  }

  /**
   * The answer holds every invitation, and every feedback row, of the supplier
   * that names a negotiation exactly once, and no others.
   */
  lemma RfqJoinKeepsEveryRow(allComms: seq<CommRow>, bids: seq<BidRow>, negs: map<Id, NegotiationRow>, supplierId: Id, slot: Slot)
    requires slot != Neither
    ensures multiset(Gathered(Rfqs(allComms, bids, negs, supplierId), slot))
         == multiset(Addressed(OfSupplier(allComms, supplierId), slot))
  {
    hide SortByLatest, EntriesFor, Gathered, AllOf, Addressed, OfSupplier;
    var comms := OfSupplier(allComms, supplierId);
    var ids := Ids(comms, bids, supplierId);
    OneEntryPerNegotiation(comms, bids, supplierId);
    EveryRowLandsOnce(comms, ids, slot);
    EntriesGather(comms, bids, negs, supplierId, ids, slot);
    SortGathers(EntriesFor(comms, bids, negs, supplierId, ids), slot);
  }

  // ---------------------------------------------------------------- the answer, from the rows of the scan

  /** The supplier's invitations to the negotiation. */
  ghost function InvitationsFor(supplierId: Id, n: Id): CommRow -> bool {
    (r: CommRow) =>
      && r.supplierId == supplierId && r.negotiationId == n && n != ""
      && (r.kind == "BID_INVITATION" || r.kind == "AUCTION_INVITATION")
  }

  /** What the supplier was told about the negotiation. */
  ghost function FeedbackFor(supplierId: Id, n: Id): CommRow -> bool {
    (r: CommRow) =>
      && r.supplierId == supplierId && r.negotiationId == n && n != ""
      && (r.kind == "AWARD_NOTIFICATION" || r.kind == "REJECTION_NOTIFICATION" || r.kind == "AUCTION_ROUND_FEEDBACK")
  }

  lemma {:induction false} SlotPicks(rows: seq<CommRow>, supplierId: Id, n: Id)
    requires n != ""
    ensures Picks(InSlot(OfSupplier(rows, supplierId), n, Invitation), rows, InvitationsFor(supplierId, n))
    ensures Picks(InSlot(OfSupplier(rows, supplierId), n, Feedback), rows, FeedbackFor(supplierId, n))
  {
    hide Picks, InSlot;
    if rows == [] {
      EmptySlots(n);
      PicksNothing([], InvitationsFor(supplierId, n));
      PicksNothing([], FeedbackFor(supplierId, n));
    } else {
      var init, r := rows[..|rows| - 1], rows[|rows| - 1];
      var mine := OfSupplier(init, supplierId);
      assert rows == init + [r];
      SlotPicks(init, supplierId, n);
      PicksOneMore(InSlot(mine, n, Invitation), init, InvitationsFor(supplierId, n), r);
      PicksOneMore(InSlot(mine, n, Feedback), init, FeedbackFor(supplierId, n), r);
      SlotOneMore(mine, r, supplierId, n);
    }
  }

  /** One more scanned row goes where its supplier, negotiation and kind say. */
  lemma SlotOneMore(mine: seq<CommRow>, r: CommRow, supplierId: Id, n: Id)
    requires n != ""
    ensures var now := if r.supplierId == supplierId then mine + [r] else mine;
      && InSlot(now, n, Invitation)
         == (if InvitationsFor(supplierId, n)(r) then InSlot(mine, n, Invitation) + [r] else InSlot(mine, n, Invitation))
      && InSlot(now, n, Feedback)
         == (if FeedbackFor(supplierId, n)(r) then InSlot(mine, n, Feedback) + [r] else InSlot(mine, n, Feedback))
  {
    InSlotOneMore(mine, r, n, Invitation);
    InSlotOneMore(mine, r, n, Feedback);
  }

  lemma EmptySlots(n: Id)
    ensures InSlot([], n, Invitation) == [] && InSlot([], n, Feedback) == []
  {
  }

  /** The supplier's last bid for the negotiation, if it made one. */
  ghost predicate LastBid(bids: seq<BidRow>, supplierId: Id, n: Id, response: Option<BidRow>) {
    if response.None? then forall b | b in bids :: !(b.supplierId == supplierId && b.negotiationId == n)
    else exists i | 0 <= i < |bids| ::
      && bids[i] == response.value && bids[i].supplierId == supplierId && bids[i].negotiationId == n
      && forall j | i < j < |bids| :: !(bids[j].supplierId == supplierId && bids[j].negotiationId == n)
  }

  /** What an entry holds, in terms of the scan, the bids and the negotiation rows. */
  ghost predicate EntryOf(e: Entry, rows: seq<CommRow>, bids: seq<BidRow>, negs: map<Id, NegotiationRow>, supplierId: Id) {
    && Picks(e.invitations, rows, InvitationsFor(supplierId, e.negotiationId))
    && Picks(e.feedback, rows, FeedbackFor(supplierId, e.negotiationId))
    && LastBid(bids, supplierId, e.negotiationId, e.response)
    && e.negotiation == (if e.negotiationId in negs then Some(negs[e.negotiationId]) else None)
  }

  lemma EntryIsOf(rows: seq<CommRow>, bids: seq<BidRow>, negs: map<Id, NegotiationRow>, supplierId: Id, n: Id)
    ensures EntryOf(EntryFor(OfSupplier(rows, supplierId), bids, negs, supplierId, n), rows, bids, negs, supplierId)
  {
    hide InSlot, Response, OfSupplier, Picks;
    ResponseIsLast(bids, supplierId, n);
    if n != "" {
      SlotPicks(rows, supplierId, n);
    } else {
      PicksNothing(rows, InvitationsFor(supplierId, n));
      PicksNothing(rows, FeedbackFor(supplierId, n));
    }
  }

  lemma {:induction false} SupplierRows(rows: seq<CommRow>, supplierId: Id)
    ensures forall r :: r in OfSupplier(rows, supplierId) <==> r in rows && r.supplierId == supplierId
  {
    if rows != [] {
      SupplierRows(rows[..|rows| - 1], supplierId);
      assert rows == rows[..|rows| - 1] + [rows[|rows| - 1]];
    }
  }

  /** The supplier was written to about the negotiation, in whatever way, or bid on it. */
  ghost predicate Involved(rows: seq<CommRow>, bids: seq<BidRow>, supplierId: Id, n: Id) {
    || (n != "" && exists r | r in rows :: r.supplierId == supplierId && r.negotiationId == n)
    || (exists b | b in bids :: b.supplierId == supplierId && b.negotiationId == n)
  }

  lemma ConcernedIsInvolved(rows: seq<CommRow>, bids: seq<BidRow>, supplierId: Id)
    ensures forall n :: Concerned(OfSupplier(rows, supplierId), bids, supplierId, n) <==> Involved(rows, bids, supplierId, n)
  {
    SupplierRows(rows, supplierId);
    forall n ensures Concerned(OfSupplier(rows, supplierId), bids, supplierId, n) <==> Involved(rows, bids, supplierId, n) {
      if n != "" {
        if r :| r in rows && r.supplierId == supplierId && r.negotiationId == n {
          assert r in OfSupplier(rows, supplierId);
        }
      }
    }
  }

  /** A number stamped on the entry: on a communication, or on the bid by creation or else by pricing. */
  ghost predicate StampOn(e: Entry, v: real) {
    || (exists r | r in e.invitations :: r.createdAt == Number(v))
    || (exists r | r in e.feedback :: r.createdAt == Number(v))
    || (e.response.Some? &&
          var b := e.response.value;
          if b.createdAt == NoStamp || b.createdAt == Number(0.0) || b.createdAt == Text("") then b.pricedAt == Number(v)
          else b.createdAt == Number(v))
  }

  /** The latest number stamped on the entry, and at least 0. */
  ghost predicate IsLatest(e: Entry, t: real) {
    t >= 0.0 && (forall v | StampOn(e, v) :: v <= t) && (t == 0.0 || StampOn(e, t))
  }

  lemma {:induction false} LatestOfIs(rows: seq<CommRow>)
    ensures LatestOf(rows) >= 0.0
    ensures forall r | r in rows && r.createdAt.Number? :: r.createdAt.value <= LatestOf(rows)
    ensures LatestOf(rows) == 0.0 || exists r | r in rows :: r.createdAt == Number(LatestOf(rows))
  {
    if rows != [] {
      var init, r := rows[..|rows| - 1], rows[|rows| - 1];
      LatestOfIs(init);
      assert rows == init + [r];
      if LatestOf(rows) == LatestOf(init) && LatestOf(init) != 0.0 {
        var q :| q in init && q.createdAt == Number(LatestOf(init));
        assert q in rows;
      } else if LatestOf(rows) != 0.0 {
        assert r in rows && r.createdAt == Number(LatestOf(rows));
      }
    }
  }

  lemma LatestTsIsLatest(e: Entry)
    ensures IsLatest(e, LatestTs(e))
  {
    LatestOfIs(e.invitations);
    LatestOfIs(e.feedback);
    hide LatestOf;
    forall v | StampOn(e, v) ensures v <= LatestTs(e) {
      if r :| r in e.invitations && r.createdAt == Number(v) {
        assert r.createdAt.value == v;
      } else if r :| r in e.feedback && r.createdAt == Number(v) {
        assert r.createdAt.value == v;
      }
    }
  }

  lemma OneLatest(e: Entry, t: real, u: real)
    requires IsLatest(e, t) && IsLatest(e, u)
    ensures t == u
  {
  }

  /**
   * The route's answer from the rows of the scan: each entry holds exactly the
   * supplier's invitations and feedback of its negotiation, in scan order, its
   * last bid and the negotiation's row; a negotiation is listed, once, if and
   * only if a communication of the supplier or a bid of it names it; and entries
   * come latest first.
   */
  lemma RfqAnswer(rows: seq<CommRow>, bids: seq<BidRow>, negs: map<Id, NegotiationRow>, supplierId: Id)
    ensures var result := Rfqs(rows, bids, negs, supplierId);
      && (forall e | e in result :: EntryOf(e, rows, bids, negs, supplierId))
      && (forall n :: (exists e | e in result :: e.negotiationId == n) <==> Involved(rows, bids, supplierId, n))
      && (forall i, j | 0 <= i < j < |result| :: result[i].negotiationId != result[j].negotiationId)
      && (forall i, j, t, u | 0 <= i < j < |result| && IsLatest(result[i], t) && IsLatest(result[j], u) :: t >= u)
  {
    hide Rfqs, OfSupplier, EntryFor, EntryOf, Concerned, Involved, IsLatest, LatestTs;
    var result := Rfqs(rows, bids, negs, supplierId);
    RfqJoin(rows, bids, negs, supplierId);
    ConcernedIsInvolved(rows, bids, supplierId);
    forall e | e in result ensures EntryOf(e, rows, bids, negs, supplierId) {
      EntryIsOf(rows, bids, negs, supplierId, e.negotiationId);
    }
    forall n ensures (exists e | e in result :: e.negotiationId == n) <==> Involved(rows, bids, supplierId, n) {
      assert Listed(result, n) <==> Concerned(OfSupplier(rows, supplierId), bids, supplierId, n);
    }
    forall i, j, t, u | 0 <= i < j < |result| && IsLatest(result[i], t) && IsLatest(result[j], u) ensures t >= u {
      LatestTsIsLatest(result[i]);
      LatestTsIsLatest(result[j]);
      OneLatest(result[i], t, LatestTs(result[i]));
      OneLatest(result[j], u, LatestTs(result[j]));
    }
  }
}
