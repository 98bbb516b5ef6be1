/**
 * Invitations derived from bids are the one event kind without a guard set:
 * only the previous snapshot is consulted.  The documentation promises no
 * duplicates for any kind.  Here: a run that repeats one, exactly which runs
 * do, and that polls which do not overlap never do while rows are kept.
 */
module DerivedInvitations {
  import opened Basics
  import opened OrderRows
  import opened EventBus
  import opened Projection
  import opened EventGuards
  import opened PollMachine
  import opened PollSafety
  import opened PollStreams
  import opened PollEffects
  import opened PollRuns
  import opened SyntheticOrderSafety

  ghost function Ids(cs: seq<Communication>): (ids: seq<Id>)
    ensures |ids| == |cs| && forall i | 0 <= i < |cs| :: ids[i] == cs[i].communicationId
  {
    seq(|cs|, i requires 0 <= i < |cs| => cs[i].communicationId)
  }

  /** The ids announced for invitations derived for `n`, in order. */
  ghost function DerivedSends(log: seq<Event>, n: Id): seq<Id> {
    if log == [] then [] else
      var rest := DerivedSends(log[..|log| - 1], n);
      var e := log[|log| - 1];
      if e.RfqSent? && e.derived && e.negotiationId == n then rest + [e.communication.communicationId] else rest
  }

  lemma {:induction false} DerivedSendsAppend(a: seq<Event>, b: seq<Event>, n: Id)
    ensures DerivedSends(a + b, n) == DerivedSends(a, n) + DerivedSends(b, n)
  {
    if b == [] {
      assert a + b == a;
    } else {
      DerivedSendsAppend(a, b[..|b| - 1], n);
      assert (a + b)[..|a + b| - 1] == a + b[..|b| - 1];
    }
  }

  lemma {:induction false} NoDerivedSends(es: seq<Event>, n: Id)
    requires forall i | 0 <= i < |es| && es[i].RfqSent? :: !es[i].derived
    ensures DerivedSends(es, n) == []
  {
    if es != [] { NoDerivedSends(es[..|es| - 1], n); }
  }

  lemma {:induction false} AllDerivedSends(m: Id, cs: seq<Communication>, n: Id)
    ensures DerivedSends(DerivedEvents(m, cs), n) == if m == n then Ids(cs) else []
  {
    if cs != [] {
      var init := cs[..|cs| - 1];
      AllDerivedSends(m, init, n);
      assert DerivedEvents(m, cs)[..|cs| - 1] == DerivedEvents(m, init);
      assert Ids(cs) == Ids(init) + [cs[|cs| - 1].communicationId];
    }
  }

  /** One diff announces the derived invitations its previous snapshot does not list, and no others. */
  lemma DiffSends(sh: Shared, l: Local, awards: seq<Award>, visit: seq<Id>, n: Id)
    ensures DerivedSends(DiffEvents(sh, l, awards, visit), n) == if l.n == n then Ids(FreshDerived(l)) else []
  {
    hide FreshInvitations, FreshFeedback, FreshDerived, FreshOffers, FreshAwards, DefinesClassification;
    var a, b := RfqEvents(l.n, FreshInvitations(sh, l)), FeedbackEvents(l.n, FreshFeedback(sh, l));
    var c, d := DerivedEvents(l.n, FreshDerived(l)), ClassificationEvents(sh, l);
    var e, f := OfferEvents(l.n, FreshOffers(sh, l, visit)), AwardEvents(l.n, FreshAwards(sh, l, awards));
    NoDerivedSends(a, n);
    NoDerivedSends(b, n);
    AllDerivedSends(l.n, FreshDerived(l), n);
    NoDerivedSends(d, n);
    NoDerivedSends(e, n);
    NoDerivedSends(f, n);
    DerivedSendsAppend(a, b, n);
    DerivedSendsAppend(a + b, c, n);
    DerivedSendsAppend(a + b + c, d, n);
    DerivedSendsAppend(a + b + c + d, e, n);
    DerivedSendsAppend(a + b + c + d + e, f, n);
  }

  lemma AutoIdInjective(a: Id, b: Id)
    ensures AutoId(a) == AutoId(b) ==> a == b
  {
    assert AutoId(a)[5..] == a && AutoId(b)[5..] == b;
  }

  /** Within one poll each supplier is derived once. */
  lemma {:induction false} AutoInvitationsDistinct(bids: seq<Bid>, names: map<Id, string>)
    ensures forall i | 0 <= i < |AutoInvitations(bids, names)| ::
              AutoInvitations(bids, names)[i].communicationId == AutoId(AutoInvitations(bids, names)[i].supplierId)
    ensures forall i, j | 0 <= i < j < |AutoInvitations(bids, names)| ::
              AutoInvitations(bids, names)[i].communicationId != AutoInvitations(bids, names)[j].communicationId
  {
    if bids != [] {
      var rest, b := AutoInvitations(bids[..|bids| - 1], names), bids[|bids| - 1];
      AutoInvitationsDistinct(bids[..|bids| - 1], names);
      forall i | 0 <= i < |rest| && b.supplierId !in KeySet(rest, SupplierKey)
        ensures rest[i].communicationId != AutoId(b.supplierId)
      {
        assert SupplierKey(rest[i]) in KeySet(rest, SupplierKey);
        AutoIdInjective(rest[i].supplierId, b.supplierId);
      }
    }
  }

  lemma {:induction false} UnseenDistinct(cs: seq<Communication>, seen: set<Id>)
    requires forall i, j | 0 <= i < j < |cs| :: cs[i].communicationId != cs[j].communicationId
    ensures forall i, j | 0 <= i < j < |Unseen(cs, seen)| ::
              Unseen(cs, seen)[i].communicationId != Unseen(cs, seen)[j].communicationId
  {
    if cs != [] {
      var init := cs[..|cs| - 1];
      UnseenDistinct(init, seen);
      UnseenSubset(init, seen);
      forall i | 0 <= i < |Unseen(init, seen)| ensures Unseen(init, seen)[i].communicationId != cs[|cs| - 1].communicationId {
        assert Unseen(init, seen)[i] in init;
      }
    }
  }

  lemma NoDuplicatesAppend<T>(a: seq<T>, b: seq<T>)
    requires NoDuplicates(a) && NoDuplicates(b)
    ensures NoDuplicates(a + b) <==> forall j | 0 <= j < |b| :: b[j] !in a
  {
    forall j | 0 <= j < |b| && b[j] in a ensures !NoDuplicates(a + b) {
      var i :| 0 <= i < |a| && a[i] == b[j];
      assert (a + b)[i] == (a + b)[|a| + j];
    }
    if forall j | 0 <= j < |b| :: b[j] !in a {
      forall i, j | 0 <= i < j < |a + b| ensures (a + b)[i] != (a + b)[j] {
        if i < |a| <= j { assert b[j - |a|] !in a; }
      }
    }
  }

  lemma SendingUnseen(sent: seq<Id>, cs: seq<Communication>, listed: set<Id>)
    requires NoDuplicates(sent)
    requires forall i, j | 0 <= i < j < |cs| :: cs[i].communicationId != cs[j].communicationId
    ensures NoDuplicates(sent + Ids(Unseen(cs, listed))) <==>
            forall c | c in cs && c.communicationId in sent :: c.communicationId in listed
  {
    var out := Unseen(cs, listed);
    UnseenDistinct(cs, listed);
    UnseenSubset(cs, listed);
    var more := Ids(out);
    NoDuplicatesAppend(sent, more);
    forall c | c in cs && c.communicationId in sent && c.communicationId !in listed
      ensures exists j | 0 <= j < |more| :: more[j] in sent
    {
      assert c in out;
      var j :| 0 <= j < |out| && out[j] == c;
      assert more[j] in sent;
    }
    forall j | 0 <= j < |more| && more[j] in sent
      ensures exists c | c in cs && c.communicationId in sent :: c.communicationId !in listed
    {
      assert out[j] in out;
    }
  }

  // ---------------------------------------------------------------- what a step announces and saves

  /** The poll of `n` that makes its diff in this step, if one does. */
  ghost function DiffOf(s: System, step: Step, n: Id): Option<Local>
    requires Enabled(s, step)
  {
    if Resumes(step) && Diffs(s, step) && PublisherLocal(s, step).n == n then Some(PublisherLocal(s, step)) else None
  }

  ghost function SavedInvitations(s: System, n: Id): seq<Communication> {
    Lookup(s.sh.state, n, NO_SNAPSHOT).invitations
  }

  lemma ProceedSends(s: System, p: nat, l: Local, awards: seq<Award>, orders: seq<Order>, visit: seq<Id>, id: Id, n: Id)
    ensures var s' := Proceed(s, p, l, awards, orders, visit, id);
      DerivedSends(s'.sh.bus.log, n)
      == DerivedSends(s.sh.bus.log, n) + if l.n == n then Ids(FreshDerived(l)) else []
  {
    hide Proceed, DiffEvents, Diff, FreshDerived, FreshOrders, BuildSnapshot;
    ProceedEffects(s, p, l, awards, orders, visit, id);
    DiffSends(s.sh, l, awards, visit, n);
    var es := DiffEvents(s.sh, l, awards, visit);
    var tail := PoEvents(l.n, FreshOrders(Diff(s.sh, l, awards, orders, visit), l, orders)) + StatusEvents(s.sh, l);
    DerivedSendsAppend(s.sh.bus.log, es, n);
    DerivedSendsAppend(s.sh.bus.log + es, tail, n);
    NoDerivedSends(tail, n);
  }

  lemma FinishSends(sh: Shared, l: Local, snap: Snapshot, orders: seq<Order>, n: Id)
    ensures DerivedSends(Finish(sh, l, snap, orders).bus.log, n) == DerivedSends(sh.bus.log, n)
  {
    hide Finish, FreshOrders;
    FinishEffects(sh, l, snap, orders);
    var tail := PoEvents(l.n, FreshOrders(sh, l, orders)) + StatusEvents(sh, l);
    DerivedSendsAppend(sh.bus.log, tail, n);
    NoDerivedSends(tail, n);
  }

  lemma PutSends(s: System, step: Step, n: Id)
    requires Enabled(s, step) && step.PutDone?
    ensures DerivedSends(Apply(s, step).sh.bus.log, n) == DerivedSends(s.sh.bus.log, n)
  {
    hide Finish, DerivedSends;
    FinishSends(s.sh, s.pollers[step.p].l, s.pollers[step.p].snapshot, [], n);
  }

  lemma StepSends(s: System, step: Step, n: Id)
    requires Enabled(s, step)
    ensures DerivedSends(Apply(s, step).sh.bus.log, n)
         == DerivedSends(s.sh.bus.log, n)
            + match DiffOf(s, step, n) case Some(l) => Ids(FreshDerived(l)) case None => []
  {
    hide Enabled, Apply, Proceed, DerivedSends, Diffs, FreshDerived, PublisherLocal, PublisherAwards, OrdersInHand;
    if step.PutDone? {
      PutSends(s, step, n);
    } else if !Resumes(step) {
      OtherStepsAreQuiet(s, step);
    } else if Diffs(s, step) {
      ResumeDiffs(s, step);
      ProceedSends(s.(sh := Noted(s, step)), step.p, PublisherLocal(s, step), PublisherAwards(s, step), OrdersInHand(s, step),
                   step.visit, step.id, n);
    } else {
      ResumeWaits(s, step);
    }
  }

  lemma StepSaves(s: System, step: Step, n: Id)
    requires Enabled(s, step)
    ensures SavedInvitations(Apply(s, step), n)
         == match DiffOf(s, step, n)
            case Some(l) => l.fetched.invitations + Derived(l)
            case None => if step.PutDone? && s.pollers[step.p].snapshot.negotiationId == n then s.pollers[step.p].snapshot.invitations
                         else SavedInvitations(s, n)
  {
    hide Enabled, Apply, Proceed, Diffs, Derived, PublisherLocal, PublisherAwards, OrdersInHand;
    if step.PutDone? {
      PutSaves(s, step, n);
    } else if !Resumes(step) {
      OtherStepsAreQuiet(s, step);
    } else {
      if Diffs(s, step) {
        ResumeDiffs(s, step);
        ProceedSaves(s.(sh := Noted(s, step)), step.p, PublisherLocal(s, step), PublisherAwards(s, step), OrdersInHand(s, step),
                     step.visit, step.id, n);
      } else {
        ResumeWaits(s, step);
      }
    }
  }

  lemma ProceedSaves(s: System, p: nat, l: Local, awards: seq<Award>, orders: seq<Order>, visit: seq<Id>, id: Id, n: Id)
    ensures SavedInvitations(Proceed(s, p, l, awards, orders, visit, id), n)
         == if l.n == n then l.fetched.invitations + Derived(l) else SavedInvitations(s, n)
  {
    hide Proceed, Derived, DiffEvents;
    ProceedEffects(s, p, l, awards, orders, visit, id);
    SnapshotParts(l, awards, orders);
  }

  lemma PutSaves(s: System, step: Step, n: Id)
    requires Enabled(s, step) && step.PutDone?
    ensures SavedInvitations(Apply(s, step), n)
         == if s.pollers[step.p].snapshot.negotiationId == n then s.pollers[step.p].snapshot.invitations
            else SavedInvitations(s, n)
  {
    hide Finish;
    FinishSaves(s.sh, s.pollers[step.p].l, s.pollers[step.p].snapshot);
  }

  lemma FinishSaves(sh: Shared, l: Local, snap: Snapshot)
    ensures Finish(sh, l, snap, []).state == sh.state[snap.negotiationId := snap.(orderIds := TruthyIds<Order>([], OrderKey))]
  {
    hide Finish, TruthyIds;
    FinishEffects(sh, l, snap, []);
  }

  // ---------------------------------------------------------------- exactly which runs repeat one

  /** Stored invitations do not use the id form reserved for derived ones. */
  ghost predicate Plain(cs: seq<Communication>) {
    forall c | c in cs :: !IsAutoId(c.communicationId)
  }

  ghost predicate PlainTables(t: Tables) {
    forall n :: Plain(Lookup(t.invitations, n, []))
  }

  ghost predicate PlainSteps(steps: seq<Step>) {
    forall i | 0 <= i < |steps| && steps[i].Environment? :: PlainTables(steps[i].tables)
  }

  /** Derived invitations among `cs` have all been announced. */
  ghost predicate Remembered(s: System, n: Id, cs: seq<Communication>) {
    forall c | c in cs && IsAutoId(c.communicationId) :: c.communicationId in DerivedSends(s.sh.bus.log, n)
  }

  ghost predicate PcRemembers(s: System, pc: Pc) {
    && (pc.Fetching? && pc.invitations.Some? ==> Plain(pc.invitations.value))
    && (Holds(pc).Some? ==>
          && Plain(Holds(pc).value.fetched.invitations)
          && Remembered(s, Holds(pc).value.n, Holds(pc).value.prev.invitations))
    && (pc.AwaitPut? ==> Remembered(s, pc.snapshot.negotiationId, pc.snapshot.invitations))
  }

  ghost predicate Remembers(s: System) {
    && PlainTables(s.tables)
    && (forall n :: Remembered(s, n, SavedInvitations(s, n)))
    && forall p | p in s.pollers :: PcRemembers(s, s.pollers[p])
  }

  ghost function DerivedIds(l: Local): set<Id> {
    KeySet(Derived(l), CommunicationKey)
  }

  ghost function PreviousIds(l: Local): set<Id> {
    TruthyIds(l.prev.invitations, CommunicationKey)
  }

  /** A poll announces, at its diff or before, every invitation it derives. */
  lemma DerivedAreSent(sent: seq<Id>, l: Local)
    requires forall c | c in l.prev.invitations && IsAutoId(c.communicationId) :: c.communicationId in sent
    ensures forall c | c in Derived(l) :: IsAutoId(c.communicationId) && c.communicationId in sent + Ids(FreshDerived(l))
    ensures forall id | id in Ids(FreshDerived(l)) :: id in DerivedIds(l)
  {
    var prev := l.prev.invitations;
    DerivedAreAuto(Named(l), l.fetched.names);
    UnseenSubset(Derived(l), PreviousIds(l));
    forall c | c in Derived(l) ensures c.communicationId in sent + Ids(FreshDerived(l)) {
      if c.communicationId in PreviousIds(l) {
        var i :| 0 <= i < |prev| && prev[i].communicationId == c.communicationId;
        assert prev[i] in prev;
      } else {
        var j :| 0 <= j < |FreshDerived(l)| && FreshDerived(l)[j] == c;
        assert Ids(FreshDerived(l))[j] == c.communicationId;
      }
    }
    forall j | 0 <= j < |FreshDerived(l)| ensures Ids(FreshDerived(l))[j] in DerivedIds(l) {
      var c := FreshDerived(l)[j];
      assert c in Derived(l);
      var i :| 0 <= i < |Derived(l)| && Derived(l)[i] == c;
      assert CommunicationKey(Derived(l)[i]) == c.communicationId;
    }
  }

  /** The rows a resuming poll publishes from are plain, and its previous snapshot remembered. */
  lemma PublisherRemembers(s: System, step: Step)
    requires Remembers(s) && Enabled(s, step) && Resumes(step)
    ensures Plain(PublisherLocal(s, step).fetched.invitations)
    ensures Remembered(s, PublisherLocal(s, step).n, PublisherLocal(s, step).prev.invitations)
  {
    hide CanChoose, Remembered, Plain;
    var pc := s.pollers[step.p];
    assert PcRemembers(s, pc);
    if step.FetchDone? { assert Remembered(s, pc.n, SavedInvitations(s, pc.n)); }
  }

  lemma RememberedGrows(s: System, s': System, n: Id, cs: seq<Communication>)
    requires Remembered(s, n, cs) && DerivedSends(s.sh.bus.log, n) <= DerivedSends(s'.sh.bus.log, n)
    ensures Remembered(s', n, cs)
  {
  }

  lemma PcRemembersGrows(s: System, s': System, pc: Pc)
    requires PcRemembers(s, pc) && forall n :: DerivedSends(s.sh.bus.log, n) <= DerivedSends(s'.sh.bus.log, n)
    ensures PcRemembers(s', pc)
  {
    hide Remembered, DerivedSends;
    if Holds(pc).Some? { RememberedGrows(s, s', Holds(pc).value.n, Holds(pc).value.prev.invitations); }
    if pc.AwaitPut? { RememberedGrows(s, s', pc.snapshot.negotiationId, pc.snapshot.invitations); }
  }

  /** What a diff saves is remembered right after it. */
  lemma SavedIsRemembered(s: System, step: Step)
    requires Remembers(s) && Enabled(s, step) && Resumes(step) && Diffs(s, step)
    ensures var l := PublisherLocal(s, step); Remembered(Apply(s, step), l.n, l.fetched.invitations + Derived(l))
  {
    hide Enabled, Apply, Diffs, PublisherLocal, Derived, FreshDerived;
    var l := PublisherLocal(s, step);
    PublisherRemembers(s, step);
    StepSends(s, step, l.n);
    DerivedAreSent(DerivedSends(s.sh.bus.log, l.n), l);
  }

  lemma ResumerRemembers(s: System, step: Step)
    requires Remembers(s) && Enabled(s, step) && Resumes(step) && step.p in Apply(s, step).pollers
    requires forall n :: DerivedSends(s.sh.bus.log, n) <= DerivedSends(Apply(s, step).sh.bus.log, n)
    ensures PcRemembers(Apply(s, step), Apply(s, step).pollers[step.p])
  {
    hide Enabled, Apply, Diffs, PublisherLocal, Derived, DerivedSends, Remembered, Plain, Remembers;
    var s', l := Apply(s, step), PublisherLocal(s, step);
    PublisherRemembers(s, step);
    RememberedGrows(s, s', l.n, l.prev.invitations);
    MoverHolds(s, step);
    if Diffs(s, step) { SavedIsRemembered(s, step); }
  }

  lemma MoverRemembers(s: System, step: Step)
    requires Remembers(s) && Enabled(s, step) && NamesPoll(step) && step.p in Apply(s, step).pollers
    requires forall n :: DerivedSends(s.sh.bus.log, n) <= DerivedSends(Apply(s, step).sh.bus.log, n)
    ensures PcRemembers(Apply(s, step), Apply(s, step).pollers[step.p])
  {
    if Resumes(step) {
      hide Enabled, Apply, PcRemembers, Remembers, DerivedSends;
      ResumerRemembers(s, step);
    } else {
      hide PcRemembers, DerivedSends, PlainTables;
      var s' := Apply(s, step);
      if step.p in s.pollers {
        assert PcRemembers(s, s.pollers[step.p]);
        PcRemembersGrows(s, s', s.pollers[step.p]);
      }
      OtherMoverRemembers(s, s', step);
    }
  }

  /** Reading, or waiting for the next read, takes on only stored rows. */
  lemma OtherMoverRemembers(s: System, s': System, step: Step)
    requires Enabled(s, step) && NamesPoll(step) && !Resumes(step) && s' == Apply(s, step) && step.p in s'.pollers
    requires PlainTables(s.tables) && (step.p in s.pollers ==> PcRemembers(s', s.pollers[step.p]))
    ensures PcRemembers(s', s'.pollers[step.p])
  {
    hide Finish, CanChoose, AfterFetch, WithOrders, NextDelete, Remembered, Plain, IsScan, Enumerates;
    if step.Read? && s.pollers[step.p].Fetching? {
      assert Plain(Lookup(s.tables.invitations, s.pollers[step.p].n, []));
    }
  }

  lemma SavesRemembered(s: System, step: Step, n: Id)
    requires Remembers(s) && Enabled(s, step)
    ensures Remembered(Apply(s, step), n, SavedInvitations(Apply(s, step), n))
  {
    StepSaves(s, step, n);
    StepSends(s, step, n);
    if step.PutDone? {
      hide Apply, DerivedSends;
      assert PcRemembers(s, s.pollers[step.p]);
    } else {
      hide Enabled, Apply, Diffs, PublisherLocal, Derived, DerivedSends, Remembered, FreshDerived;
      if DiffOf(s, step, n).Some? {
        SavedIsRemembered(s, step);
      } else {
        RememberedGrows(s, Apply(s, step), n, SavedInvitations(s, n));
      }
    }
  }

  lemma StepRemembers(s: System, step: Step)
    requires Remembers(s) && Enabled(s, step) && (step.Environment? ==> PlainTables(step.tables))
    ensures Remembers(Apply(s, step))
  {
    hide Enabled, Apply, DerivedSends, Remembered, PcRemembers, SavedInvitations, DiffOf, Plain;
    var s' := Apply(s, step);
    forall n ensures DerivedSends(s.sh.bus.log, n) <= DerivedSends(s'.sh.bus.log, n) { StepSends(s, step, n); }
    forall n ensures Remembered(s', n, SavedInvitations(s', n)) { SavesRemembered(s, step, n); }
    if NamesPoll(step) { StepMoves(s, step); } else { OtherPollersStay(s, step); }
    TablesStayPlain(s, step);
    forall p | p in s'.pollers ensures PcRemembers(s', s'.pollers[p]) {
      if NamesPoll(step) && p == step.p {
        MoverRemembers(s, step);
      } else {
        PcRemembersGrows(s, s', s.pollers[p]);
      }
    }
  }

  lemma TablesStayPlain(s: System, step: Step)
    requires PlainTables(s.tables) && Enabled(s, step) && (step.Environment? ==> PlainTables(step.tables))
    ensures PlainTables(Apply(s, step).tables)
  {
    hide Plain;
    if NamesPoll(step) {
      hide Apply;
      StepMoves(s, step);
    }
  }

  lemma {:induction false} RunRemembers(steps: seq<Step>)
    requires Legal(START, steps) && PlainSteps(steps)
    ensures Remembers(Exec(START, steps))
  {
    hide Apply, Enabled;
    if steps == [] {
      assert forall n :: Plain(Lookup(START.tables.invitations, n, []));
    } else {
      RunRemembers(steps[..|steps| - 1]);
      StepRemembers(Exec(START, steps[..|steps| - 1]), steps[|steps| - 1]);
    }
  }

  /** The polls of `n` that made their diff in a run, in order. */
  ghost function DiffsOf(s: System, steps: seq<Step>, n: Id): seq<Local>
    requires Legal(s, steps)
    decreases |steps|
  {
    if steps == [] then [] else
      var init := steps[..|steps| - 1];
      DiffsOf(s, init, n) + match DiffOf(Exec(s, init), steps[|steps| - 1], n) case Some(l) => [l] case None => []
  }

  /** A later poll derives an invitation again that its previous snapshot does not list. */
  ghost predicate Forgets(earlier: Local, later: Local) {
    exists id | id in DerivedIds(earlier) && id in DerivedIds(later) :: id !in PreviousIds(later)
  }

  ghost predicate NoneForgets(ls: seq<Local>) {
    forall i, j | 0 <= i < j < |ls| :: !Forgets(ls[i], ls[j])
  }

  ghost predicate DerivedBefore(ls: seq<Local>, id: Id) {
    exists i | 0 <= i < |ls| :: id in DerivedIds(ls[i])
  }

  lemma DerivedBeforeOneMore(ls: seq<Local>, l: Local, id: Id)
    ensures DerivedBefore(ls + [l], id) <==> DerivedBefore(ls, id) || id in DerivedIds(l)
  {
    if DerivedBefore(ls, id) {
      var i :| 0 <= i < |ls| && id in DerivedIds(ls[i]);
      assert (ls + [l])[i] == ls[i];
    }
    assert (ls + [l])[|ls|] == l;
  }

  lemma NoneForgetsOneMore(ls: seq<Local>, l: Local)
    ensures NoneForgets(ls + [l]) <==>
            NoneForgets(ls) && forall id | id in DerivedIds(l) && DerivedBefore(ls, id) :: id in PreviousIds(l)
  {
    hide DerivedIds, PreviousIds;
    var all := ls + [l];
    if NoneForgets(all) {
      forall i, j | 0 <= i < j < |ls| ensures !Forgets(ls[i], ls[j]) { assert !Forgets(all[i], all[j]); }
      forall id | id in DerivedIds(l) && DerivedBefore(ls, id) ensures id in PreviousIds(l) {
        var i :| 0 <= i < |ls| && id in DerivedIds(ls[i]);
        assert !Forgets(all[i], all[|ls|]);
      }
    }
  }

  /** Over a whole run: an id has been announced exactly when some diff derived it, and the repeats are the forgotten ones. */
  lemma {:induction false} RunSends(steps: seq<Step>, n: Id)
    requires Legal(START, steps) && PlainSteps(steps)
    ensures var sent, ls := DerivedSends(Exec(START, steps).sh.bus.log, n), DiffsOf(START, steps, n);
      && (forall id :: id in sent <==> DerivedBefore(ls, id))
      && (NoDuplicates(sent) <==> NoneForgets(ls))
  {
    hide Apply, Enabled, DiffOf, DerivedSends, NoneForgets, DerivedBefore, FreshDerived;
    if steps == [] {
      NothingSent(n);
    } else {
      var init, last := steps[..|steps| - 1], steps[|steps| - 1];
      var s := Exec(START, init);
      RunSends(init, n);
      RunRemembers(init);
      StepSends(s, last, n);
      var sent, ls := DerivedSends(s.sh.bus.log, n), DiffsOf(START, init, n);
      assert sent + [] == sent && ls + [] == ls;
      if DiffOf(s, last, n).Some? {
        DiffExtends(s, last, n, ls);
        assert DiffsOf(START, steps, n) == ls + [DiffOf(s, last, n).value];
      } else {
        assert DiffsOf(START, steps, n) == ls;
      }
    }
  }

  lemma NothingSent(n: Id)
    ensures DerivedSends(START.sh.bus.log, n) == [] && NoneForgets([]) && forall id :: !DerivedBefore([], id)
  {
  }

  lemma DiffExtends(s: System, step: Step, n: Id, ls: seq<Local>)
    requires Remembers(s) && Enabled(s, step) && DiffOf(s, step, n).Some?
    requires forall id :: id in DerivedSends(s.sh.bus.log, n) <==> DerivedBefore(ls, id)
    requires NoDuplicates(DerivedSends(s.sh.bus.log, n)) <==> NoneForgets(ls)
    ensures var l := DiffOf(s, step, n).value;
            var sent := DerivedSends(s.sh.bus.log, n) + Ids(FreshDerived(l));
      && (forall id :: id in sent <==> DerivedBefore(ls + [l], id))
      && (NoDuplicates(sent) <==> NoneForgets(ls + [l]))
  {
    hide Enabled, Diffs, PublisherLocal, DerivedSends, NoneForgets, DerivedBefore;
    var l, sent := DiffOf(s, step, n).value, DerivedSends(s.sh.bus.log, n);
    var more := Ids(FreshDerived(l));
    PublisherRemembers(s, step);
    DerivedAreSent(sent, l);
    NoneForgetsOneMore(ls, l);
    DerivedIdsInSends(l);
    forall id ensures id in sent + more <==> DerivedBefore(ls + [l], id) { DerivedBeforeOneMore(ls, l, id); }
    if NoDuplicates(sent) {
      AutoInvitationsDistinct(Named(l), l.fetched.names);
      SendingUnseen(sent, Derived(l), PreviousIds(l));
    } else {
      PrefixDuplicates(sent, more);
    }
  }

  lemma DerivedIdsInSends(l: Local)
    ensures forall id :: id in DerivedIds(l) <==> exists c | c in Derived(l) :: c.communicationId == id
  {
    forall id | id in DerivedIds(l) ensures exists c | c in Derived(l) :: c.communicationId == id {
      var i :| 0 <= i < |Derived(l)| && CommunicationKey(Derived(l)[i]) == id;
      assert Derived(l)[i] in Derived(l);
    }
    forall c | c in Derived(l) ensures c.communicationId in DerivedIds(l) {
      var i :| 0 <= i < |Derived(l)| && Derived(l)[i] == c;
      assert CommunicationKey(Derived(l)[i]) in DerivedIds(l);
    }
  }

  lemma PrefixDuplicates<T>(a: seq<T>, b: seq<T>)
    requires !NoDuplicates(a)
    ensures !NoDuplicates(a + b)
  {
    var i, j :| 0 <= i < j < |a| && a[i] == a[j];
    assert (a + b)[i] == (a + b)[j];
  }

  /**
   * Over any run, the derived invitations announced for a negotiation are free
   * of duplicates exactly when no poll derives one that an earlier poll
   * derived and its own previous snapshot does not list.
   */
  lemma RepeatsExactlyWhenForgotten(steps: seq<Step>, n: Id)
    requires Legal(START, steps) && PlainSteps(steps)
    ensures NoDuplicates(DerivedSends(Exec(START, steps).sh.bus.log, n)) <==> NoneForgets(DiffsOf(START, steps, n))
  {
    RunSends(steps, n);
  }

  /** The poll derives the invitation, and its own previous snapshot does not list it. */
  ghost predicate Unlisted(l: Local, id: Id) {
    id in DerivedIds(l) && id !in PreviousIds(l)
  }

  ghost predicate UnlistedIn(ls: seq<Local>, id: Id) {
    exists i | 0 <= i < |ls| :: Unlisted(ls[i], id)
  }

  ghost predicate UnlistedOnce(ls: seq<Local>) {
    forall i, j, id | 0 <= i < j < |ls| && Unlisted(ls[i], id) :: !Unlisted(ls[j], id)
  }

  lemma UnlistedOneMore(ls: seq<Local>, l: Local)
    ensures forall id :: UnlistedIn(ls + [l], id) <==> UnlistedIn(ls, id) || Unlisted(l, id)
    ensures UnlistedOnce(ls + [l]) <==> UnlistedOnce(ls) && forall id | Unlisted(l, id) :: !UnlistedIn(ls, id)
  {
    hide Unlisted;
    var all := ls + [l];
    assert all[|ls|] == l && forall i | 0 <= i < |ls| :: all[i] == ls[i];
    forall id ensures UnlistedIn(all, id) <==> UnlistedIn(ls, id) || Unlisted(l, id) {
      if UnlistedIn(ls, id) {
        var i :| 0 <= i < |ls| && Unlisted(ls[i], id);
        assert Unlisted(all[i], id);
      }
      if Unlisted(l, id) { assert Unlisted(all[|ls|], id); }
    }
    if UnlistedOnce(all) {
      forall i, j, id | 0 <= i < j < |ls| && Unlisted(ls[i], id) ensures !Unlisted(ls[j], id) {
        assert Unlisted(all[i], id) && !Unlisted(all[j], id);
      }
      forall id | UnlistedIn(ls, id) ensures !Unlisted(l, id) {
        var i :| 0 <= i < |ls| && Unlisted(ls[i], id);
        assert Unlisted(all[i], id);
        assert !Unlisted(all[|ls|], id);
      }
    }
  }

  lemma AnnouncedAreUnlisted(l: Local)
    ensures forall id :: id in Ids(FreshDerived(l)) <==> Unlisted(l, id)
    ensures NoDuplicates(Ids(FreshDerived(l)))
  {
    hide AutoInvitations, TruthyIds, Derived, Unseen, DerivedIds;
    UnseenSubset(Derived(l), PreviousIds(l));
    DerivedIdsInSends(l);
    forall j | 0 <= j < |FreshDerived(l)| ensures Unlisted(l, Ids(FreshDerived(l))[j]) {
      assert FreshDerived(l)[j] in Derived(l);
    }
    forall id | Unlisted(l, id) ensures id in Ids(FreshDerived(l)) {
      var c :| c in Derived(l) && c.communicationId == id;
      var j :| 0 <= j < |FreshDerived(l)| && FreshDerived(l)[j] == c;
      assert Ids(FreshDerived(l))[j] == id;
    }
    AnnouncedDistinct(l);
  }

  lemma AnnouncedDistinct(l: Local)
    ensures NoDuplicates(Ids(FreshDerived(l)))
  {
    hide AutoInvitations, Unseen;
    AutoInvitationsDistinct(Named(l), l.fetched.names);
    UnseenDistinct(Derived(l), PreviousIds(l));
  }

  lemma AnnouncedOneMore(sent: seq<Id>, ls: seq<Local>, l: Local)
    requires forall id :: id in sent <==> UnlistedIn(ls, id)
    requires NoDuplicates(sent) <==> UnlistedOnce(ls)
    ensures forall id :: id in sent + Ids(FreshDerived(l)) <==> UnlistedIn(ls + [l], id)
    ensures NoDuplicates(sent + Ids(FreshDerived(l))) <==> UnlistedOnce(ls + [l])
  {
    hide Unlisted, UnlistedIn, UnlistedOnce, FreshDerived;
    var more := Ids(FreshDerived(l));
    AnnouncedAreUnlisted(l);
    UnlistedOneMore(ls, l);
    if NoDuplicates(sent) {
      NoDuplicatesAppend(sent, more);
    } else {
      PrefixDuplicates(sent, more);
    }
  }

  lemma {:induction false} RunAnnounces(steps: seq<Step>, n: Id)
    requires Legal(START, steps)
    ensures var sent, ls := DerivedSends(Exec(START, steps).sh.bus.log, n), DiffsOf(START, steps, n);
      && (forall id :: id in sent <==> UnlistedIn(ls, id))
      && (NoDuplicates(sent) <==> UnlistedOnce(ls))
  {
    hide Apply, Enabled, DiffOf, DerivedSends, UnlistedIn, UnlistedOnce, FreshDerived;
    if steps == [] {
      NothingSent(n);
      NothingUnlisted();
    } else {
      var init, last := steps[..|steps| - 1], steps[|steps| - 1];
      var s := Exec(START, init);
      RunAnnounces(init, n);
      StepSends(s, last, n);
      var sent, ls := DerivedSends(s.sh.bus.log, n), DiffsOf(START, init, n);
      assert sent + [] == sent && ls + [] == ls;
      if DiffOf(s, last, n).Some? {
        AnnouncedOneMore(sent, ls, DiffOf(s, last, n).value);
        assert DiffsOf(START, steps, n) == ls + [DiffOf(s, last, n).value];
      } else {
        assert DiffsOf(START, steps, n) == ls;
      }
    }
  }

  lemma NothingUnlisted()
    ensures UnlistedOnce([]) && forall id :: !UnlistedIn([], id)
  {
  }

  /**
   * The same for every run, whatever ids are stored: duplicates are exactly the
   * ids that two polls derive while neither's own previous snapshot lists them.
   */
  lemma RepeatsExactlyWhenTwiceUnlisted(steps: seq<Step>, n: Id)
    requires Legal(START, steps)
    ensures NoDuplicates(DerivedSends(Exec(START, steps).sh.bus.log, n)) <==> UnlistedOnce(DiffsOf(START, steps, n))
  {
    RunAnnounces(steps, n);
  }

  // ---------------------------------------------------------------- stored and derived invitations together

  /** The ids of all rfq_sent events for `n`, as a client sees them. */
  ghost function RfqIds(log: seq<Event>, n: Id): seq<Id> {
    if log == [] then [] else
      var rest := RfqIds(log[..|log| - 1], n);
      var e := log[|log| - 1];
      if e.RfqSent? && e.negotiationId == n then rest + [e.communication.communicationId] else rest
  }

  /** Derived invitations use the reserved id form, stored ones do not. */
  ghost predicate Apart(log: seq<Event>) {
    forall i | 0 <= i < |log| && log[i].RfqSent? :: log[i].derived <==> IsAutoId(log[i].communication.communicationId)
  }

  ghost predicate Announces(e: Event, n: Id, id: Id) {
    e.RfqSent? && e.negotiationId == n && e.communication.communicationId == id
  }

  lemma {:induction false} RfqIdsMembers(log: seq<Event>, n: Id, id: Id)
    ensures id in RfqIds(log, n) <==> exists i | 0 <= i < |log| :: Announces(log[i], n, id)
    ensures id in DerivedSends(log, n) <==> exists i | 0 <= i < |log| :: Announces(log[i], n, id) && log[i].derived
  {
    if log != [] {
      var init, e := log[..|log| - 1], log[|log| - 1];
      RfqIdsMembers(init, n, id);
      assert forall i | 0 <= i < |init| :: init[i] == log[i];
      if Announces(e, n, id) { assert Announces(log[|log| - 1], n, id); }
    }
  }

  lemma OneMoreId(ids: seq<Id>, id: Id)
    ensures NoDuplicates(ids + [id]) <==> NoDuplicates(ids) && id !in ids
  {
    assert [id][0] == id;
    if !NoDuplicates(ids) { PrefixDuplicates(ids, [id]); } else { NoDuplicatesAppend(ids, [id]); }
  }

  /** With stored ids unique and apart from derived ones, all repeats are repeats of derived ones. */
  lemma {:induction false} OnlyDerivedRepeat(log: seq<Event>, n: Id)
    requires AtMostOnce(log) && Apart(log)
    ensures NoDuplicates(RfqIds(log, n)) <==> NoDuplicates(DerivedSends(log, n))
  {
    if log != [] {
      var init, e := log[..|log| - 1], log[|log| - 1];
      assert forall i | 0 <= i < |init| :: init[i] == log[i];
      OnlyDerivedRepeat(init, n);
      if e.RfqSent? && e.negotiationId == n {
        var id := e.communication.communicationId;
        RfqIdsMembers(init, n, id);
        OneMoreId(RfqIds(init, n), id);
        OneMoreId(DerivedSends(init, n), id);
        forall i | 0 <= i < |init| && Announces(init[i], n, id) ensures init[i].derived == e.derived && e.derived {
          assert KeyOf(log[i]).Some? ==> KeyOf(log[i]) != KeyOf(log[|log| - 1]);
        }
      }
    }
  }

  lemma ApartAppend(a: seq<Event>, b: seq<Event>)
    requires Apart(a) && Apart(b)
    ensures Apart(a + b)
  {
  }

  lemma StepApart(s: System, step: Step)
    requires Remembers(s) && Enabled(s, step) && Apart(s.sh.bus.log)
    ensures Apart(Apply(s, step).sh.bus.log)
  {
    hide Apply, Enabled, PublisherLocal, PublisherAwards, OrdersInHand, Derived, Remembers;
    if step.PutDone? {
      PutApart(s, step);
    } else if !Resumes(step) {
      OtherStepsAreQuiet(s, step);
    } else {
      var l, awards, orders := PublisherLocal(s, step), PublisherAwards(s, step), OrdersInHand(s, step);
      PublisherRemembers(s, step);
      StepAdds(s, step);
      var es :| AllFromRows(es, l, awards, orders) && Apply(s, step).sh.bus == PublishAll(s.sh.bus, es);
      PublishAllFrame(s.sh.bus, es);
      RowsApart(es, l, awards, orders);
      ApartAppend(s.sh.bus.log, es);
    }
  }

  lemma RowsApart(es: seq<Event>, l: Local, awards: seq<Award>, orders: seq<Order>)
    requires AllFromRows(es, l, awards, orders) && Plain(l.fetched.invitations)
    ensures Apart(es)
  {
    DerivedAreAuto(Named(l), l.fetched.names);
    forall i | 0 <= i < |es| && es[i].RfqSent? ensures es[i].derived <==> IsAutoId(es[i].communication.communicationId) {
      assert FromRows(es[i], l, awards, orders);
    }
  }

  lemma PutApart(s: System, step: Step)
    requires Enabled(s, step) && step.PutDone? && Apart(s.sh.bus.log)
    ensures Apart(Apply(s, step).sh.bus.log)
  {
    hide Finish;
    var pc := s.pollers[step.p];
    FinishEffects(s.sh, pc.l, pc.snapshot, []);
    ApartAppend(s.sh.bus.log, PoEvents(pc.l.n, FreshOrders(s.sh, pc.l, [])) + StatusEvents(s.sh, pc.l));
  }

  lemma {:induction false} RunApart(steps: seq<Step>)
    requires Legal(START, steps) && PlainSteps(steps)
    ensures Apart(Exec(START, steps).sh.bus.log)
  {
    hide Apply, Enabled, Remembers;
    if steps != [] {
      var init := steps[..|steps| - 1];
      RunApart(init);
      RunRemembers(init);
      StepApart(Exec(START, init), steps[|steps| - 1]);
    }
  }

  /**
   * What the promise comes to for rfq_sent as a client sees it: over any run,
   * no id is announced twice for a negotiation, stored or derived, exactly when
   * no poll derives one that an earlier poll derived and its own previous
   * snapshot does not list.
   */
  lemma RfqSentRepeatsExactly(steps: seq<Step>, n: Id)
    requires Legal(START, steps) && PlainSteps(steps)
    ensures NoDuplicates(RfqIds(Exec(START, steps).sh.bus.log, n)) <==> NoneForgets(DiffsOf(START, steps, n))
  {
    hide Apply, Enabled, Exec, Legal;
    assert Reachable(Exec(START, steps));
    EventsAtMostOnce(Exec(START, steps));
    RunApart(steps);
    OnlyDerivedRepeat(Exec(START, steps).sh.bus.log, n);
    RepeatsExactlyWhenForgotten(steps, n);
  }

  // ---------------------------------------------------------------- a run that repeats one

  const BID := Bid("b", "s", "", 0.0, 0.0, None)
  const TABLES := Tables(map["n" := Negotiation("r", "", "", "")], map["n" := [BID]], map[], map[], map[], map[])

  lemma OneDerived(l: Local)
    requires l == RowsNow(START.(tables := TABLES), "n")
    ensures l.n == "n" && Truthy(RequisitionOf(l)) && Ids(FreshDerived(l)) == [AutoId("s")]
  {
    var named := WithSupplierName(BID, map[]);
    var c := AutoInvitation(named, map[]);
    assert Named(l) == [named];
    assert [named][..0] == [];
    assert AutoInvitations([named], map[]) == [c];
    assert PreviousIds(l) == {};
    assert [c][..0] == [];
    assert Unseen([c], {}) == [c];
  }

  /** A poll whose order read fails makes its diff, and announces what it has derived. */
  lemma FailedReadAnnounces(s: System, p: nat, l: Local, id: Id) returns (s': System)
    requires Reachable(s) && p in s.pollers && s.pollers[p] == AwaitOrders(l, [], None) && FreshId(s, id)
    requires l.n == "n" && Ids(FreshDerived(l)) == [AutoId("s")]
    ensures Reachable(s') && MovesOnly(s, s', p) && s'.minted.Keys <= s.minted.Keys + {id}
    ensures DerivedSends(s'.sh.bus.log, "n") == DerivedSends(s.sh.bus.log, "n") + [AutoId("s")]
  {
    hide Proceed, FreshDerived, DerivedSends;
    var visit := SomeVisit(NewOffers(l));
    var step := OrdersFailed(p, visit, id);
    s' := Apply(s, step);
    Then(s, step);
    StepMoves(s, step);
    StepSends(s, step, "n");
    ResumeDiffs(s, step);
    ProceedOrders(s, p, l, [], [], visit, id);
  }

  /** Some run has two overlapping polls both announce the same derived invitation. */
  lemma OverlappingPollsRepeat()
    ensures exists s :: Reachable(s) && DerivedSends(s.sh.bus.log, "n") == [AutoId("s"), AutoId("s")]
  {
    hide Reachable, RowsNow, DerivedSends, AutoId;
    var s0 := START.(tables := TABLES);
    TablesAppear(TABLES);
    var l := RowsNow(s0, "n");
    OneDerived(l);
    PollAwaitsOrders(s0, 1, "n", "x");
    var s1 := At(s0, 1, AwaitOrders(l, [], None));
    SameRows(s0, s1, "n");
    PollAwaitsOrders(s1, 2, "n", "x");
    var s2 := At(s1, 2, AwaitOrders(l, [], None));
    var s3 := FailedReadAnnounces(s2, 1, l, "x");
    var s4 := FailedReadAnnounces(s3, 2, l, "y");
    NothingSent("n");
  }
}
