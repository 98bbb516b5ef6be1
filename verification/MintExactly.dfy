/**
 * Exactly when a synthetic order is minted, and what it says, in terms of the
 * rows the poll has read.
 */
module MintExactly {
  import opened Basics
  import opened OrderRows
  import opened Projection
  import opened PollMachine
  import opened PollStreams
  import opened PollEffects
  import opened SyntheticOrderSafety

  /** The poll has read status APPROVED and some award with an id. */
  ghost predicate Approved(l: Local, awards: seq<Award>) {
    && l.fetched.negotiation.Some? && l.fetched.negotiation.value.status == "APPROVED"
    && exists a | a in awards :: a.awardId != ""
  }

  /** The order read failed, or listed no order of the negotiation's requisition. */
  ghost predicate NoOrderListed(s: System, step: Step)
    requires Enabled(s, step)
  {
    step.OrdersFailed? ||
    (step.OrdersDone? && forall o | o in s.pollers[step.p].listing.value ::
       s.pollers[step.p].l.fetched.negotiation.Some? ==> o.requisitionId != s.pollers[step.p].l.fetched.negotiation.value.requisitionId)
  }

  /** The poll goes on from its order read with everything a synthetic order takes. */
  ghost predicate Due(s: System, step: Step)
    requires Enabled(s, step)
  {
    && (step.OrdersDone? || step.OrdersFailed?)
    && Approved(s.pollers[step.p].l, s.pollers[step.p].awards) && NoOrderListed(s, step)
    && s.pollers[step.p].l.n !in s.sh.syntheticNegotiations
  }

  /** The order names the first award's supplier, award and sums, and the negotiation's requisition. */
  ghost predicate OrderFor(o: Order, id: Id, requisition: Id, award: Award, names: map<Id, string>) {
    && o.orderId == id && o.requisitionId == requisition && o.tenantId == TENANT_ID && o.status == "PENDING"
    && o.supplierId == award.supplierId && o.awardId == award.awardId
    && o.totalValue == award.totalAmount && o.savingsAmount == award.savingsAmount && o.savingsPct == 0.0
    && o.supplierName == if award.supplierName != "" then award.supplierName
                         else if award.supplierId in names && names[award.supplierId] != "" then names[award.supplierId]
                         else award.supplierId
  }

  lemma SomeAwardId(awards: seq<Award>)
    ensures TruthyIds(awards, AwardKey) != {} <==> exists a | a in awards :: a.awardId != ""
  {
    if id :| id in TruthyIds(awards, AwardKey) {
      var i :| 0 <= i < |awards| && AwardKey(awards[i]) == id;
      assert awards[i] in awards;
    }
    if a :| a in awards && a.awardId != "" {
      var i :| 0 <= i < |awards| && awards[i] == a;
      assert AwardKey(awards[i]) in KeySet(awards, AwardKey);
      assert a.awardId in TruthyIds(awards, AwardKey);
    }
  }

  lemma NothingListed(rows: seq<Order>, requisition: Id)
    ensures OfRequisition(rows, requisition) == [] <==> forall o | o in rows :: o.requisitionId != requisition
  {
    var mine := OfRequisition(rows, requisition);
    OfRequisitionMembers(rows, requisition);
    if mine != [] { assert mine[0] in mine; }
  }

  lemma ProceedMintsOne(s: System, p: nat, l: Local, awards: seq<Award>, visit: seq<Id>, id: Id)
    requires Approved(l, awards) && l.n !in s.sh.syntheticNegotiations
    ensures var s' := Proceed(s, p, l, awards, [], visit, id);
      && s'.minted == s.minted[id := l.n] && s'.pollers[p].AwaitPut? && id in s'.puts && awards != []
      && OrderFor(s'.puts[id], id, l.fetched.negotiation.value.requisitionId, awards[0], l.fetched.names)
      && l.n in s'.sh.syntheticNegotiations && id in s'.sh.syntheticOrders
      && s'.puts == s.puts[id := s'.puts[id]]
  {
    hide Diff, Finish;
    DiffKeepsTracking(s.sh, l, awards, [], visit);
    SomeAwardId(awards);
  }

  /**
   * A poll that goes on from its order read with an approved negotiation, an
   * award with an id, no order listed and no earlier claim mints an order: it
   * claims the negotiation, tracks the id, and waits for the put of an order
   * made of the first award.
   */
  lemma MintsWhenDue(s: System, step: Step)
    requires Enabled(s, step) && Due(s, step)
    ensures var s', pc := Apply(s, step), s.pollers[step.p];
      && s'.minted == s.minted[step.id := pc.l.n] && step.p in s'.pollers && s'.pollers[step.p].AwaitPut?
      && step.id in s'.puts && s'.puts == s.puts[step.id := s'.puts[step.id]] && pc.awards != []
      && OrderFor(s'.puts[step.id], step.id, pc.l.fetched.negotiation.value.requisitionId, pc.awards[0], pc.l.fetched.names)
      && pc.l.n in s'.sh.syntheticNegotiations && step.id in s'.sh.syntheticOrders
  {
    hide Apply, Proceed, CanChoose, OfRequisition, Approved, OrderFor;
    var pc := s.pollers[step.p];
    assert pc.l.fetched.negotiation.Some? by { ApprovedHasRow(pc.l, pc.awards); }
    if step.OrdersDone? { NothingListed(pc.listing.value, RequisitionOf(pc.l)); }
    assert OrdersInHand(s, step) == [];
    assert RealOrders(s.sh, []) == [];
    ResumeDiffs(s, step);
    ProceedMintsOne(s, step.p, pc.l, pc.awards, step.visit, step.id);
  }

  lemma ApprovedHasRow(l: Local, awards: seq<Award>)
    requires Approved(l, awards)
    ensures l.fetched.negotiation.Some?
  {
  }

  /** In every reachable state, these are exactly the steps that mint. */
  lemma MintsExactlyWhenDue(s: System, step: Step)
    requires Reachable(s) && Enabled(s, step)
    ensures Apply(s, step).minted != s.minted <==> Due(s, step)
  {
    if Due(s, step) {
      hide Apply, Reachable, Due;
      FreshWhenDue(s, step);
      MintsWhenDue(s, step);
      assert step.id in Apply(s, step).minted;
    } else if Apply(s, step).minted != s.minted {
      hide Apply, Reachable, CanChoose, OfRequisition;
      MintedOnlyWhenApproved(s, step);
      SomeAwardId(s.pollers[step.p].awards);
      if step.OrdersDone? { NothingListed(s.pollers[step.p].listing.value, RequisitionOf(s.pollers[step.p].l)); }
    }
  }

  lemma FreshWhenDue(s: System, step: Step)
    requires Enabled(s, step) && Due(s, step)
    ensures (step.OrdersDone? || step.OrdersFailed?) && step.id !in s.minted
  {
  }
}
