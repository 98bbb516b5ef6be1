/**
 * What a poll returns, in terms of the rows it read: the negotiation's fields,
 * every bid with its supplier's name filled in, the feedback, and the stored
 * invitations or, when there are none, one per bidding supplier.
 */
module SnapshotRows {
  import opened Basics
  import opened OrderRows
  import opened EventBus
  import opened Projection
  import opened EventGuards
  import opened PollMachine
  import opened PollStreams
  import opened PollEffects

  // ---------------------------------------------------------------- rows and what is shown of them

  /** A bid's own supplier name if it has one, else the roster's, else the supplier id. */
  ghost predicate NamedAfter(row: Bid, name: string, names: map<Id, string>) {
    if row.supplierName != "" then name == row.supplierName
    else if row.supplierId in names && names[row.supplierId] != "" then name == names[row.supplierId]
    else name == row.supplierId
  }

  ghost predicate ShowsBids(rows: seq<Bid>, shown: seq<Bid>, names: map<Id, string>) {
    && |shown| == |rows|
    && forall i | 0 <= i < |rows| ::
         && shown[i].bidId == rows[i].bidId && shown[i].supplierId == rows[i].supplierId
         && shown[i].amount == rows[i].amount && shown[i].totalAmount == rows[i].totalAmount
         && shown[i].rank == rows[i].rank && NamedAfter(rows[i], shown[i].supplierName, names)
  }

  /** The invitation derived for the first bid of a supplier. */
  ghost predicate DerivedFrom(rows: seq<Bid>, c: Communication, names: map<Id, string>) {
    exists i | 0 <= i < |rows| ::
      && rows[i].supplierId != "" && (forall j | 0 <= j < i :: rows[j].supplierId != rows[i].supplierId)
      && c.communicationId == "auto-" + rows[i].supplierId && c.supplierId == rows[i].supplierId
      && NamedAfter(rows[i], c.supplierName, names)
  }

  /** One derived invitation for each supplier that bid. */
  ghost predicate ShowsDerived(rows: seq<Bid>, shown: seq<Communication>, names: map<Id, string>) {
    && (forall c | c in shown :: DerivedFrom(rows, c, names))
    && (forall b | b in rows && b.supplierId != "" :: exists c | c in shown :: c.supplierId == b.supplierId)
    && (forall i, j | 0 <= i < j < |shown| :: shown[i].supplierId != shown[j].supplierId)
  }

  /** The fields of the negotiation row, or empty ones if there is no row. */
  ghost predicate ShowsNegotiation(snap: Snapshot, n: Id, neg: Option<Negotiation>) {
    && snap.negotiationId == n
    && (neg.Some? ==>
          && snap.requisitionId == neg.value.requisitionId && snap.status == neg.value.status
          && snap.quadrant == neg.value.quadrant && snap.strategy == neg.value.strategy)
    && (neg.None? ==> snap.requisitionId == "" && snap.status == "" && snap.quadrant == "" && snap.strategy == "")
  }

  ghost predicate ShowsRows(snap: Snapshot, n: Id, neg: Option<Negotiation>, bids: seq<Bid>, invitations: seq<Communication>,
                            feedback: seq<Communication>, names: map<Id, string>)
  {
    && ShowsNegotiation(snap, n, neg)
    && ShowsBids(bids, snap.bids, names) && snap.feedback == feedback
    && (if invitations != [] then snap.invitations == invitations else ShowsDerived(bids, snap.invitations, names))
  }

  /** The id lists of a snapshot are those of its rows, empty ids aside. */
  ghost predicate ListsIds(snap: Snapshot) {
    && (forall id :: id in snap.awardIds <==> id != "" && exists a | a in snap.awards :: a.awardId == id)
    && (forall id :: id in snap.orderIds <==> id != "" && exists o | o in snap.orders :: o.orderId == id)
  }

  // ---------------------------------------------------------------- the snapshot as built

  lemma BuiltBids(l: Local)
    ensures ShowsBids(l.fetched.bids, Named(l), l.fetched.names)
  {
  }

  lemma {:induction false} DerivedRows(rows: seq<Bid>, shown: seq<Bid>, names: map<Id, string>)
    requires ShowsBids(rows, shown, names)
    ensures ShowsDerived(rows, AutoInvitations(shown, names), names)
  {
    hide DerivedFrom, ShowsDerived, AutoInvitation, KeySet, NamedAfter;
    if rows == [] {
      NothingDerived(names);
    } else {
      var rows0, shown0 := rows[..|rows| - 1], shown[..|shown| - 1];
      var row, b := rows[|rows| - 1], shown[|shown| - 1];
      var out := AutoInvitations(shown0, names);
      DerivedRows(rows0, shown0, names);
      assert rows == rows0 + [row];
      AutoInvitationOf(row, b, names);
      if row.supplierId != "" && row.supplierId !in KeySet(out, SupplierKey) {
        NewSupplier(rows0, row, out, AutoInvitation(b, names), names);
      } else {
        KnownSupplier(rows0, row, out, names);
      }
    }
  }

  lemma NothingDerived(names: map<Id, string>)
    ensures AutoInvitations([], names) == [] && ShowsDerived([], [], names)
  {
  }

  lemma AutoInvitationOf(row: Bid, b: Bid, names: map<Id, string>)
    requires b.supplierId == row.supplierId && NamedAfter(row, b.supplierName, names)
    ensures var c := AutoInvitation(b, names);
      c.communicationId == "auto-" + row.supplierId && c.supplierId == row.supplierId
      && (row.supplierId != "" ==> NamedAfter(row, c.supplierName, names))
  {
  }

  lemma KnownSupplier(rows: seq<Bid>, row: Bid, out: seq<Communication>, names: map<Id, string>)
    requires ShowsDerived(rows, out, names) && (row.supplierId == "" || row.supplierId in KeySet(out, SupplierKey))
    ensures ShowsDerived(rows + [row], out, names)
  {
    forall c | c in out ensures DerivedFrom(rows + [row], c, names) { DerivedFromMore(rows, row, c, names); }
    forall b | b in rows + [row] && b.supplierId != "" ensures exists c | c in out :: c.supplierId == b.supplierId {
      if b !in rows {
        var i :| 0 <= i < |out| && SupplierKey(out[i]) == b.supplierId;
        assert out[i] in out;
      }
    }
  }

  lemma DerivedFromMore(rows: seq<Bid>, row: Bid, c: Communication, names: map<Id, string>)
    requires DerivedFrom(rows, c, names)
    ensures DerivedFrom(rows + [row], c, names)
  {
    var i :| 0 <= i < |rows|
             && rows[i].supplierId != "" && (forall j | 0 <= j < i :: rows[j].supplierId != rows[i].supplierId)
             && c.communicationId == "auto-" + rows[i].supplierId && c.supplierId == rows[i].supplierId
             && NamedAfter(rows[i], c.supplierName, names);
    assert (rows + [row])[i] == rows[i];
  }

  lemma NewSupplier(rows: seq<Bid>, row: Bid, out: seq<Communication>, c: Communication, names: map<Id, string>)
    requires ShowsDerived(rows, out, names) && row.supplierId != "" && row.supplierId !in KeySet(out, SupplierKey)
    requires c.communicationId == "auto-" + row.supplierId && c.supplierId == row.supplierId && NamedAfter(row, c.supplierName, names)
    ensures ShowsDerived(rows + [row], out + [c], names)
  {
    var all, more := rows + [row], out + [c];
    forall i | 0 <= i < |out| ensures out[i].supplierId != row.supplierId { assert SupplierKey(out[i]) in KeySet(out, SupplierKey); }
    forall b | b in rows && b.supplierId != "" ensures b.supplierId != row.supplierId {
      var d :| d in out && d.supplierId == b.supplierId;
    }
    assert forall j | 0 <= j < |rows| :: rows[j] in rows;
    assert all[|rows|] == row;
    assert DerivedFrom(all, c, names);
    forall d | d in more ensures DerivedFrom(all, d, names) {
      if d in out { DerivedFromMore(rows, row, d, names); }
    }
    forall b | b in all && b.supplierId != "" ensures exists d | d in more :: d.supplierId == b.supplierId {
      if b in rows {
        var d :| d in out && d.supplierId == b.supplierId;
        assert d in more;
      } else {
        assert c in more;
      }
    }
  }

  lemma BuiltShowsRows(l: Local, awards: seq<Award>, orders: seq<Order>)
    ensures var snap, f := BuildSnapshot(l, awards, orders), l.fetched;
      && ShowsRows(snap, l.n, f.negotiation, f.bids, f.invitations, f.feedback, f.names)
      && ListsIds(snap) && snap.awards == awards && snap.orders == orders
  {
    BuiltBids(l);
    DerivedRows(l.fetched.bids, Named(l), l.fetched.names);
    assert l.fetched.invitations + [] == l.fetched.invitations;
    assert [] + Derived(l) == Derived(l);
    IdsOfRows(awards, AwardKey);
    IdsOfRows(orders, OrderKey);
  }

  lemma IdsOfRows<T>(rows: seq<T>, key: T -> Id)
    ensures forall id :: id in TruthyIds(rows, key) <==> id != "" && exists r | r in rows :: key(r) == id
  {
    forall id | id in TruthyIds(rows, key) ensures exists r | r in rows :: key(r) == id {
      var i :| 0 <= i < |rows| && key(rows[i]) == id;
      assert rows[i] in rows;
    }
    forall id | id != "" && exists r | r in rows :: key(r) == id ensures id in TruthyIds(rows, key) {
      var r :| r in rows && key(r) == id;
      var i :| 0 <= i < |rows| && rows[i] == r;
      assert key(rows[i]) in KeySet(rows, key);
    }
  }

  // ---------------------------------------------------------------- along a run

  /** The four reads a poll has made. */
  datatype Reads = Reads(n: Id, negotiation: Option<Negotiation>, bids: seq<Bid>, invitations: seq<Communication>,
                         feedback: seq<Communication>)

  ghost predicate HasRead(pc: Pc, r: Reads) {
    pc == Fetching(r.n, Some(r.negotiation), Some(r.bids), Some(r.invitations), Some(r.feedback))
  }

  ghost predicate HoldsReads(l: Local, r: Reads) {
    && l.n == r.n && l.fetched.negotiation == r.negotiation && l.fetched.bids == r.bids
    && l.fetched.invitations == r.invitations && l.fetched.feedback == r.feedback
  }

  ghost predicate ShowsReads(snap: Snapshot, r: Reads) {
    exists names :: ShowsRows(snap, r.n, r.negotiation, r.bids, r.invitations, r.feedback, names)
  }

  /** What the poll goes on with, or shows in the end, are the rows it read. */
  ghost predicate Carries(pc: Pc, r: Reads) {
    match pc
    case Fetching(_, _, _, _, _) => HasRead(pc, r)
    case AwaitPut(_, snap, _) => ShowsReads(snap, r)
    case Done(result) => result.Some? ==> ShowsReads(result.value, r)
    case _ => HoldsReads(Holds(pc).value, r)
  }

  lemma PublisherHoldsReads(s: System, step: Step, r: Reads)
    requires Enabled(s, step) && Resumes(step) && Carries(s.pollers[step.p], r)
    ensures HoldsReads(PublisherLocal(s, step), r)
  {
    hide CanChoose;
  }

  lemma ProceedCarries(s: System, p: nat, l: Local, awards: seq<Award>, orders: seq<Order>, visit: seq<Id>, id: Id, r: Reads)
    requires HoldsReads(l, r)
    ensures Carries(Proceed(s, p, l, awards, orders, visit, id).pollers[p], r)
  {
    hide Proceed, BuildSnapshot, ShowsRows;
    ProceedEffects(s, p, l, awards, orders, visit, id);
    BuiltShowsRows(l, awards, orders);
  }

  lemma ResumerCarries(s: System, step: Step, r: Reads)
    requires Enabled(s, step) && Resumes(step) && Carries(s.pollers[step.p], r) && step.p in Apply(s, step).pollers
    ensures Carries(Apply(s, step).pollers[step.p], r)
  {
    hide Apply, Proceed, Diffs, CanChoose, PublisherLocal, PublisherAwards, OrdersInHand, ShowsReads;
    PublisherHoldsReads(s, step, r);
    if Diffs(s, step) {
      ResumeDiffs(s, step);
      ProceedCarries(s.(sh := Noted(s, step)), step.p, PublisherLocal(s, step), PublisherAwards(s, step), OrdersInHand(s, step),
                     step.visit, step.id, r);
    } else {
      ResumeWaits(s, step);
    }
  }

  lemma OtherMoverCarries(s: System, step: Step, r: Reads)
    requires Enabled(s, step) && NamesPoll(step) && !Resumes(step) && step.p in s.pollers && Carries(s.pollers[step.p], r)
    ensures step.p in Apply(s, step).pollers && Carries(Apply(s, step).pollers[step.p], r)
  {
    hide CanChoose, AfterFetch, WithOrders, NextDelete, Finish, ShowsReads;
  }

  lemma {:induction false} RunCarries(s: System, steps: seq<Step>, p: nat, r: Reads)
    requires Legal(s, steps) && p in s.pollers && Carries(s.pollers[p], r)
    ensures p in Exec(s, steps).pollers && Carries(Exec(s, steps).pollers[p], r)
  {
    hide Apply, Enabled, Carries;
    if steps != [] {
      var init, last := steps[..|steps| - 1], steps[|steps| - 1];
      var s1 := Exec(s, init);
      RunCarries(s, init, p, r);
      if NamesPoll(last) {
        StepMoves(s1, last);
        if last.p == p {
          if Resumes(last) { ResumerCarries(s1, last, r); } else { OtherMoverCarries(s1, last, r); }
        }
      } else {
        OtherPollersStay(s1, last);
      }
    }
  }

  /**
   * A poll that has made its four reads, whatever runs until it is done,
   * returns a snapshot of exactly those rows, or none.
   */
  lemma SnapshotShowsReads(s: System, p: nat, r: Reads, steps: seq<Step>, snap: Snapshot)
    requires p in s.pollers && HasRead(s.pollers[p], r) && Legal(s, steps)
    requires p in Exec(s, steps).pollers && Exec(s, steps).pollers[p] == Done(Some(snap))
    ensures exists names :: ShowsRows(snap, r.n, r.negotiation, r.bids, r.invitations, r.feedback, names)
  {
    hide Apply, Enabled, Exec, Legal, ShowsRows;
    RunCarries(s, steps, p, r);
  }

  /** With all reads back, a poll gives up exactly when there is neither a row nor a saved snapshot of the negotiation. */
  lemma GivesUpExactly(s: System, step: Step, r: Reads)
    requires Enabled(s, step) && step.FetchDone? && HasRead(s.pollers[step.p], r)
    ensures step.p in Apply(s, step).pollers
    ensures Apply(s, step).pollers[step.p] == Done(None) <==> r.negotiation.None? && r.n !in s.sh.state
  {
    if Diffs(s, step) {
      hide Apply, Proceed, Enumerates, DiffEvents, BuildSnapshot;
      var l := PublisherLocal(s, step);
      ResumeDiffs(s, step);
      ProceedEffects(s, step.p, l, PublisherAwards(s, step), OrdersInHand(s, step), step.visit, step.id);
    } else {
      hide Proceed, Enumerates;
    }
  }

  /** The four reads take what the tables hold for the negotiation at that moment. */
  lemma ReadsTakeTheTables(s: System, step: Step, n: Id)
    requires Enabled(s, step) && step.Read? && s.pollers[step.p].Fetching? && s.pollers[step.p].n == n
    ensures step.p in Apply(s, step).pollers && Apply(s, step).pollers[step.p].Fetching?
    ensures var was, now, t := s.pollers[step.p], Apply(s, step).pollers[step.p], s.tables;
      && now.n == n
      && (now.negotiation != was.negotiation ==>
            now.negotiation == Some(if n in t.negotiations then Some(t.negotiations[n]) else None))
      && (now.bids != was.bids ==> now.bids == Some(if n in t.bids then t.bids[n] else []))
      && (now.invitations != was.invitations ==> now.invitations == Some(if n in t.invitations then t.invitations[n] else []))
      && (now.feedback != was.feedback ==> now.feedback == Some(if n in t.feedback then t.feedback[n] else []))
  {
    hide CanChoose, AfterFetch, WithOrders, NextDelete, Finish;
  }

  // ---------------------------------------------------------------- awards

  /** The awards the poll goes on with, or shows in the end. */
  ghost predicate CarriesAwards(pc: Pc, awards: seq<Award>) {
    match pc
    case AwaitOrders(_, rows, _) => rows == awards
    case Deleting(_, rows, _, _) => rows == awards
    case AwaitPut(_, snap, _) => snap.awards == awards
    case Done(result) => result.Some? ==> result.value.awards == awards
    case _ => false
  }

  lemma ResumerCarriesAwards(s: System, step: Step, awards: seq<Award>)
    requires Enabled(s, step) && Resumes(step) && CarriesAwards(s.pollers[step.p], awards) && step.p in Apply(s, step).pollers
    ensures CarriesAwards(Apply(s, step).pollers[step.p], awards)
  {
    hide Apply, Proceed, CanChoose, BuildSnapshot;
    SnapshotParts(PublisherLocal(s, step), PublisherAwards(s, step), OrdersInHand(s, step));
    if Diffs(s, step) {
      ResumeDiffs(s, step);
      ProceedEffects(s.(sh := Noted(s, step)), step.p, PublisherLocal(s, step), PublisherAwards(s, step), OrdersInHand(s, step),
                     step.visit, step.id);
    } else {
      ResumeWaits(s, step);
    }
  }

  lemma OtherMoverCarriesAwards(s: System, step: Step, awards: seq<Award>)
    requires Enabled(s, step) && NamesPoll(step) && !Resumes(step) && step.p in s.pollers && CarriesAwards(s.pollers[step.p], awards)
    ensures step.p in Apply(s, step).pollers && CarriesAwards(Apply(s, step).pollers[step.p], awards)
  {
    hide CanChoose, AfterFetch, WithOrders, NextDelete, Finish;
  }

  /** A poll that has left its award read returns the awards it read, and none if that read failed. */
  lemma {:induction false} SnapshotShowsAwards(s: System, p: nat, awards: seq<Award>, steps: seq<Step>)
    requires Legal(s, steps) && p in s.pollers && CarriesAwards(s.pollers[p], awards)
    ensures p in Exec(s, steps).pollers && CarriesAwards(Exec(s, steps).pollers[p], awards)
  {
    hide Apply, Enabled, CarriesAwards;
    if steps != [] {
      var init, last := steps[..|steps| - 1], steps[|steps| - 1];
      var s1 := Exec(s, init);
      SnapshotShowsAwards(s, p, awards, init);
      if NamesPoll(last) {
        StepMoves(s1, last);
        if last.p == p {
          if Resumes(last) { ResumerCarriesAwards(s1, last, awards); } else { OtherMoverCarriesAwards(s1, last, awards); }
        }
      } else {
        OtherPollersStay(s1, last);
      }
    }
  }

  /** The award read takes the awards of the requisition; leaving it keeps them, or none if it failed. */
  lemma AwardsAreRead(s: System, step: Step)
    requires Enabled(s, step) && NamesPoll(step) && step.p in s.pollers && s.pollers[step.p].AwaitAwards?
    ensures step.p in Apply(s, step).pollers
    ensures var was, now, t := s.pollers[step.p], Apply(s, step).pollers[step.p], s.tables;
            var requisition := RequisitionOf(was.l);
      && (step.Read? && was.rows.None? ==>
            now == AwaitAwards(was.l, Some(if requisition in t.awards then t.awards[requisition] else [])))
      && (step.AwardsDone? ==> was.rows.Some? && now == AwaitOrders(was.l, was.rows.value, None))
      && (step.AwardsFailed? ==> now == AwaitOrders(was.l, [], None))
  {
    hide CanChoose, AfterFetch, WithOrders, NextDelete, Finish;
  }
}
