/**
 * Derived invitations when the polls of a negotiation do not overlap.  While
 * its suppliers and its stored invitations stay in the tables, the saved
 * snapshot lists everything announced so far, or stored invitations have
 * arrived and nothing more is derived; either way nothing is announced twice.
 * Polls of other negotiations, listeners and all failures are free.
 */
module DerivedSerial {
  import opened Basics
  import opened OrderRows
  import opened EventBus
  import opened Projection
  import opened EventGuards
  import opened PollMachine
  import opened PollStreams
  import opened PollEffects
  import opened DerivedInvitations

  ghost function SupplierAutoIds(bids: seq<Bid>): set<Id> {
    set b | b in bids && Truthy(b.supplierId) :: AutoId(b.supplierId)
  }

  ghost function BidsOf(t: Tables, n: Id): seq<Bid> { Lookup(t.bids, n, []) }

  ghost predicate Stored(t: Tables, n: Id) { Lookup(t.invitations, n, []) != [] }

  /** The suppliers that bid stay, and stored invitations do not vanish altogether. */
  ghost predicate KeepsRows(t: Tables, u: Tables, n: Id) {
    && SupplierAutoIds(BidsOf(t, n)) <= SupplierAutoIds(BidsOf(u, n))
    && (Stored(t, n) ==> Stored(u, n))
  }

  ghost predicate RowsKept(s: System, steps: seq<Step>, n: Id)
    requires Legal(s, steps)
    decreases |steps|
  {
    steps == [] ||
    var init, last := steps[..|steps| - 1], steps[|steps| - 1];
    RowsKept(s, init, n) && (last.Environment? ==> KeepsRows(Exec(s, init).tables, last.tables, n))
  }

  // ---------------------------------------------------------------- the invariant

  ghost function Sent(s: System, n: Id): seq<Id> { DerivedSends(s.sh.bus.log, n) }

  ghost function Listed(s: System, n: Id): set<Id> { TruthyIds(SavedInvitations(s, n), CommunicationKey) }

  /** Whatever was announced is still in sight: of these bids, and of the saved snapshot. */
  ghost predicate InSight(s: System, n: Id, bids: seq<Bid>) {
    forall id | id in Sent(s, n) :: id in SupplierAutoIds(bids) && id in Listed(s, n)
  }

  ghost predicate StateKept(s: System, n: Id) {
    NoDuplicates(Sent(s, n)) && (Stored(s.tables, n) || InSight(s, n, BidsOf(s.tables, n)))
  }

  /** What a poll of `n` has read, against what has been announced. */
  ghost predicate ReadsKept(s: System, n: Id, bids: seq<Bid>, invitations: seq<Communication>) {
    && SupplierAutoIds(bids) <= SupplierAutoIds(BidsOf(s.tables, n))
    && (if invitations != [] then Stored(s.tables, n) else InSight(s, n, bids))
  }

  ghost predicate PcKept(s: System, n: Id, pc: Pc) {
    && (pc.Fetching? && pc.n == n ==>
          && (pc.invitations.Some? ==> pc.bids.Some? && ReadsKept(s, n, pc.bids.value, pc.invitations.value))
          && (pc.bids.Some? ==>
                && SupplierAutoIds(pc.bids.value) <= SupplierAutoIds(BidsOf(s.tables, n))
                && (Stored(s.tables, n) || InSight(s, n, pc.bids.value))))
    && (Holds(pc).Some? && Holds(pc).value.n == n ==>
          var l := Holds(pc).value;
          l.prev == Lookup(s.sh.state, n, NO_SNAPSHOT) && ReadsKept(s, n, l.fetched.bids, l.fetched.invitations))
    && (pc.AwaitPut? ==>
          pc.snapshot.negotiationId == pc.l.n && (pc.l.n == n ==> pc.snapshot.invitations == SavedInvitations(s, n)))
  }

  ghost predicate Kept(s: System, n: Id) {
    StateKept(s, n) && AtMostOneWorks(s, n) && forall p | p in s.pollers :: PcKept(s, n, s.pollers[p])
  }

  /** Nothing about `n` changed, except that rows may have been added. */
  ghost predicate SameFor(s: System, s': System, n: Id) {
    && Sent(s', n) == Sent(s, n)
    && Lookup(s'.sh.state, n, NO_SNAPSHOT) == Lookup(s.sh.state, n, NO_SNAPSHOT)
    && KeepsRows(s.tables, s'.tables, n)
  }

  lemma ReadsStayKept(s: System, s': System, n: Id, bids: seq<Bid>, invitations: seq<Communication>)
    requires ReadsKept(s, n, bids, invitations) && SameFor(s, s', n)
    ensures ReadsKept(s', n, bids, invitations)
  {
    hide SupplierAutoIds;
  }

  lemma PcStaysKept(s: System, s': System, n: Id, pc: Pc)
    requires PcKept(s, n, pc) && SameFor(s, s', n)
    ensures PcKept(s', n, pc)
  {
    hide SupplierAutoIds;
  }

  lemma StateStaysKept(s: System, s': System, n: Id)
    requires StateKept(s, n) && SameFor(s, s', n)
    ensures StateKept(s', n)
  {
    hide SupplierAutoIds;
  }

  /** A poll that is not about `n`, or is done, has nothing to keep. */
  lemma NotWorkingIsKept(s: System, n: Id, pc: Pc)
    requires !Working(pc, n) && (pc.AwaitPut? ==> pc.snapshot.negotiationId == pc.l.n)
    ensures PcKept(s, n, pc)
  {
  }

  // ---------------------------------------------------------------- the diff of a poll of n

  lemma {:induction false} DerivedIdsOf(bids: seq<Bid>, names: map<Id, string>)
    ensures KeySet(AutoInvitations(bids, names), CommunicationKey) == SupplierAutoIds(bids)
    ensures KeySet(AutoInvitations(bids, names), SupplierKey) == set b | b in bids && Truthy(b.supplierId) :: b.supplierId
  {
    if bids != [] {
      var init, b := bids[..|bids| - 1], bids[|bids| - 1];
      var out, c := AutoInvitations(init, names), AutoInvitation(b, names);
      assert bids == init + [b];
      DerivedIdsOf(init, names);
      KeySetAppend(out, [c], CommunicationKey);
      KeySetAppend(out, [c], SupplierKey);
      assert KeySet([c], CommunicationKey) == {AutoId(b.supplierId)} by { assert CommunicationKey([c][0]) in KeySet([c], CommunicationKey); }
      assert KeySet([c], SupplierKey) == {b.supplierId} by { assert SupplierKey([c][0]) in KeySet([c], SupplierKey); }
    }
  }

  lemma NamedSuppliers(l: Local)
    ensures SupplierAutoIds(Named(l)) == SupplierAutoIds(l.fetched.bids)
  {
    var bids, named := l.fetched.bids, Named(l);
    forall b | b in bids && Truthy(b.supplierId) ensures AutoId(b.supplierId) in SupplierAutoIds(named) {
      var i :| 0 <= i < |bids| && bids[i] == b;
      assert named[i] in named && named[i].supplierId == b.supplierId;
    }
    forall b | b in named && Truthy(b.supplierId) ensures AutoId(b.supplierId) in SupplierAutoIds(bids) {
      var i :| 0 <= i < |named| && named[i] == b;
      assert bids[i] in bids;
    }
  }

  /** What the new snapshot lists: every supplier's derived id, when no invitation is stored. */
  lemma DerivedListing(l: Local)
    requires l.fetched.invitations == []
    ensures DerivedIds(l) == SupplierAutoIds(l.fetched.bids)
    ensures TruthyIds(l.fetched.invitations + Derived(l), CommunicationKey) == DerivedIds(l)
  {
    DerivedIdsOf(Named(l), l.fetched.names);
    NamedSuppliers(l);
    assert l.fetched.invitations + Derived(l) == Derived(l);
    forall id | id in SupplierAutoIds(l.fetched.bids) ensures id != "" {
      var b :| b in l.fetched.bids && id == AutoId(b.supplierId);
      assert |AutoId(b.supplierId)| >= 5;
    }
  }

  lemma DiffAnnouncesNew(s: System, n: Id, l: Local)
    requires l.n == n && StateKept(s, n) && ReadsKept(s, n, l.fetched.bids, l.fetched.invitations)
    requires l.prev == Lookup(s.sh.state, n, NO_SNAPSHOT)
    ensures NoDuplicates(Sent(s, n) + Ids(FreshDerived(l)))
    ensures l.fetched.invitations != [] ==> Ids(FreshDerived(l)) == []
    ensures l.fetched.invitations == [] ==>
              forall id | id in Sent(s, n) + Ids(FreshDerived(l)) :: id in SupplierAutoIds(l.fetched.bids)
  {
    hide AutoInvitations, DerivedSends;
    AutoInvitationsDistinct(Named(l), l.fetched.names);
    SendingUnseen(Sent(s, n), Derived(l), PreviousIds(l));
    UnseenSubset(Derived(l), PreviousIds(l));
    if l.fetched.invitations == [] {
      DerivedListing(l);
      forall j | 0 <= j < |FreshDerived(l)| ensures Ids(FreshDerived(l))[j] in SupplierAutoIds(l.fetched.bids) {
        var c := FreshDerived(l)[j];
        assert c in Derived(l);
        DerivedIdsInSends(l);
      }
    }
  }

  /** After the diff of a poll of `n`, the snapshot it saved has everything in sight. */
  lemma DiffKept(s: System, s': System, n: Id, l: Local)
    requires l.n == n && StateKept(s, n) && ReadsKept(s, n, l.fetched.bids, l.fetched.invitations)
    requires l.prev == Lookup(s.sh.state, n, NO_SNAPSHOT) && s'.tables == s.tables
    requires Sent(s', n) == Sent(s, n) + Ids(FreshDerived(l))
    requires SavedInvitations(s', n) == l.fetched.invitations + Derived(l)
    ensures StateKept(s', n)
  {
    hide Derived, DerivedSends, SavedInvitations, FreshDerived, SupplierAutoIds;
    DiffAnnouncesNew(s, n, l);
    if l.fetched.invitations == [] { DerivedListing(l); }
  }

  // ---------------------------------------------------------------- steps

  lemma SameWhenNoDiff(s: System, step: Step, n: Id)
    requires Enabled(s, step) && DiffOf(s, step, n).None? && (step.Environment? ==> KeepsRows(s.tables, step.tables, n))
    requires step.PutDone? ==> s.pollers[step.p].snapshot.negotiationId != n
    ensures SameFor(s, Apply(s, step), n)
  {
    hide SupplierAutoIds, DerivedSends, Stored;
    StepSends(s, step, n);
    SavedStays(s, step, n);
    TablesKeep(s, step, n);
    assert Sent(s, n) + [] == Sent(s, n);
  }

  lemma TablesKeep(s: System, step: Step, n: Id)
    requires Enabled(s, step) && (step.Environment? ==> KeepsRows(s.tables, step.tables, n))
    ensures KeepsRows(s.tables, Apply(s, step).tables, n)
  {
    hide SupplierAutoIds, Proceed;
    if NamesPoll(step) {
      hide Apply;
      StepMoves(s, step);
    }
  }

  lemma ProceedKeepsOther(s: System, p: nat, l: Local, awards: seq<Award>, orders: seq<Order>, visit: seq<Id>, id: Id, n: Id)
    requires l.n != n
    ensures Lookup(Proceed(s, p, l, awards, orders, visit, id).sh.state, n, NO_SNAPSHOT) == Lookup(s.sh.state, n, NO_SNAPSHOT)
  {
    hide Proceed, DiffEvents;
    ProceedEffects(s, p, l, awards, orders, visit, id);
  }

  lemma SavedStays(s: System, step: Step, n: Id)
    requires Enabled(s, step) && DiffOf(s, step, n).None?
    requires step.PutDone? ==> s.pollers[step.p].snapshot.negotiationId != n
    ensures Lookup(Apply(s, step).sh.state, n, NO_SNAPSHOT) == Lookup(s.sh.state, n, NO_SNAPSHOT)
  {
    if step.PutDone? {
      hide Finish;
      FinishSaves(s.sh, s.pollers[step.p].l, s.pollers[step.p].snapshot);
    } else {
      hide Enabled, Apply, Proceed, Diffs, PublisherLocal, PublisherAwards, OrdersInHand;
      if !Resumes(step) {
        OtherStepsAreQuiet(s, step);
      } else if Diffs(s, step) {
        ResumeDiffs(s, step);
        ProceedKeepsOther(s.(sh := Noted(s, step)), step.p, PublisherLocal(s, step), PublisherAwards(s, step), OrdersInHand(s, step),
                          step.visit, step.id, n);
      } else {
        ResumeWaits(s, step);
      }
    }
  }

  /** The poll that makes its diff holds rows that are kept, and the saved snapshot. */
  lemma PublisherKept(s: System, step: Step, n: Id)
    requires Kept(s, n) && Enabled(s, step) && Resumes(step) && PublisherLocal(s, step).n == n
    ensures var l := PublisherLocal(s, step);
      ReadsKept(s, n, l.fetched.bids, l.fetched.invitations) && l.prev == Lookup(s.sh.state, n, NO_SNAPSHOT)
    ensures step.p in s.pollers && Working(s.pollers[step.p], n)
  {
    hide CanChoose, ReadsKept, StateKept, InSight, SupplierAutoIds;
    assert PcKept(s, n, s.pollers[step.p]);
  }

  lemma ReadKept(s: System, n: Id, pc: Pc)
    requires StateKept(s, n) && PcKept(s, n, pc)
    ensures PcKept(s, n, ReadNext(s.tables, pc))
  {
    hide SupplierAutoIds, DerivedSends, SavedInvitations;
  }

  /** A step of a poll that neither makes a diff of `n` nor saves for it keeps that poll's part. */
  lemma MoverKept(s: System, step: Step, n: Id)
    requires Kept(s, n) && Enabled(s, step) && NamesPoll(step) && DiffOf(s, step, n).None?
    requires SameFor(s, Apply(s, step), n) && step.p in Apply(s, step).pollers
    ensures PcKept(Apply(s, step), n, Apply(s, step).pollers[step.p])
  {
    var s' := Apply(s, step);
    if Resumes(step) {
      hide Enabled, Apply, Diffs, PublisherLocal, ReadsKept, StateKept, SameFor;
      var l := PublisherLocal(s, step);
      MoverHolds(s, step);
      if l.n == n {
        PublisherKept(s, step, n);
        ReadsStayKept(s, s', n, l.fetched.bids, l.fetched.invitations);
        SameState(s, s', n);
      }
    } else {
      hide Finish, CanChoose, ReadsKept, StateKept, SameFor, InSight, SupplierAutoIds;
      if step.p in s.pollers {
        assert PcKept(s, n, s.pollers[step.p]);
        PcStaysKept(s, s', n, s.pollers[step.p]);
        if step.Read? {
          ReadKept(s, n, s.pollers[step.p]);
          PcStaysKept(s, s', n, ReadNext(s.tables, s.pollers[step.p]));
        }
      }
    }
  }

  lemma SameState(s: System, s': System, n: Id)
    requires SameFor(s, s', n)
    ensures Lookup(s'.sh.state, n, NO_SNAPSHOT) == Lookup(s.sh.state, n, NO_SNAPSHOT)
  {
  }

  /** Steps that leave `n` alone. */
  lemma QuietStepKept(s: System, step: Step, n: Id)
    requires Kept(s, n) && Enabled(s, step) && AtMostOneWorks(Apply(s, step), n)
    requires DiffOf(s, step, n).None? && SameFor(s, Apply(s, step), n)
    ensures Kept(Apply(s, step), n)
  {
    hide Enabled, Apply, DiffOf, SameFor, PcKept, StateKept, AtMostOneWorks;
    var s' := Apply(s, step);
    StateStaysKept(s, s', n);
    if NamesPoll(step) { StepMoves(s, step); } else { OtherPollersStay(s, step); }
    forall p | p in s'.pollers ensures PcKept(s', n, s'.pollers[p]) {
      if NamesPoll(step) && p == step.p {
        MoverKept(s, step, n);
      } else {
        PcStaysKept(s, s', n, s.pollers[p]);
      }
    }
  }

  /** Others keep their part while the only poll of `n` saves. */
  lemma OthersKept(s: System, s': System, n: Id, p: nat)
    requires Kept(s, n) && p in s.pollers && Working(s.pollers[p], n) && MovesOnly(s, s', p)
    ensures forall q | q in s'.pollers && q != p :: PcKept(s', n, s'.pollers[q])
  {
    hide StateKept, ReadsKept;
    forall q | q in s'.pollers && q != p ensures PcKept(s', n, s'.pollers[q]) {
      assert PcKept(s, n, s.pollers[q]);
      assert !Working(s.pollers[q], n);
      NotWorkingIsKept(s', n, s.pollers[q]);
    }
  }

  lemma DiffStepKept(s: System, step: Step, n: Id)
    requires Kept(s, n) && Enabled(s, step) && DiffOf(s, step, n).Some? && AtMostOneWorks(Apply(s, step), n)
    ensures Kept(Apply(s, step), n)
  {
    hide Enabled, Apply, Diffs, PublisherLocal, ReadsKept, StateKept, AtMostOneWorks, Derived, FreshDerived;
    var s', l := Apply(s, step), DiffOf(s, step, n).value;
    PublisherKept(s, step, n);
    StepMoves(s, step);
    StepSends(s, step, n);
    StepSaves(s, step, n);
    DiffKept(s, s', n, l);
    OthersKept(s, s', n, step.p);
    MoverHolds(s, step);
  }

  lemma PutStepKept(s: System, step: Step, n: Id)
    requires Kept(s, n) && Enabled(s, step) && step.PutDone? && s.pollers[step.p].snapshot.negotiationId == n
    requires AtMostOneWorks(Apply(s, step), n)
    ensures Kept(Apply(s, step), n)
  {
    hide Finish, StateKept, ReadsKept, AtMostOneWorks;
    var s' := Apply(s, step);
    assert PcKept(s, n, s.pollers[step.p]);
    PutSends(s, step, n);
    PutSaves(s, step, n);
    StepMoves(s, step);
    StateSaved(s, s', n);
    OthersKept(s, s', n, step.p);
  }

  lemma StateSaved(s: System, s': System, n: Id)
    requires StateKept(s, n) && Sent(s', n) == Sent(s, n) && SavedInvitations(s', n) == SavedInvitations(s, n)
    requires s'.tables == s.tables
    ensures StateKept(s', n)
  {
    hide SupplierAutoIds, SavedInvitations, DerivedSends;
  }

  lemma StepKept(s: System, step: Step, n: Id)
    requires Kept(s, n) && Enabled(s, step) && (step.Environment? ==> KeepsRows(s.tables, step.tables, n))
    requires step.Start? && step.n == n ==> Idle(s, n)
    ensures Kept(Apply(s, step), n)
  {
    hide Apply, Kept, Diffs, KeepsRows, SameFor, PublisherLocal;
    assert AtMostOneWorks(s, n) by { assert Kept(s, n); KeptSerial(s, n); }
    StepKeepsAtMostOne(s, step, n);
    if DiffOf(s, step, n).Some? {
      DiffStepKept(s, step, n);
    } else if step.PutDone? && s.pollers[step.p].snapshot.negotiationId == n {
      PutStepKept(s, step, n);
    } else {
      SameWhenNoDiff(s, step, n);
      QuietStepKept(s, step, n);
    }
  }

  lemma KeptSerial(s: System, n: Id)
    requires Kept(s, n)
    ensures AtMostOneWorks(s, n) && NoDuplicates(Sent(s, n))
  {
  }

  lemma {:induction false} RunKept(steps: seq<Step>, n: Id)
    requires Legal(START, steps) && OneAtATime(START, steps, n) && RowsKept(START, steps, n)
    ensures Kept(Exec(START, steps), n)
  {
    hide Apply, Enabled;
    if steps != [] {
      RunKept(steps[..|steps| - 1], n);
      StepKept(Exec(START, steps[..|steps| - 1]), steps[|steps| - 1], n);
    }
  }

  /**
   * When polls of a negotiation do not overlap and its rows are kept, no
   * derived invitation of it is ever announced twice.
   */
  lemma SerialPollsNeverRepeat(steps: seq<Step>, n: Id)
    requires Legal(START, steps) && OneAtATime(START, steps, n) && RowsKept(START, steps, n)
    ensures NoDuplicates(DerivedSends(Exec(START, steps).sh.bus.log, n))
  {
    RunKept(steps, n);
    KeptSerial(Exec(START, steps), n);
  }
}
