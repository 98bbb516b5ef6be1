/**
 * A run in which a stream misses an award: it was published before the client
 * subscribed, and the award read of the client's own poll fails.
 */
module MissedAward {
  import opened Basics
  import opened OrderRows
  import opened EventBus
  import opened Projection
  import opened EventGuards
  import opened PollMachine
  import opened PollStreams
  import opened PollEffects
  import opened PollRuns
  import opened StreamNoGap

  const AWARD := Award("a", "s", "", 1.0, 0.0)
  const ROWS := Tables(map["n" := Negotiation("r", "", "", "")], map[], map[], map[], map["r" := [AWARD]], map[])
  const ISSUED := AwardIssued("n", AWARD)
  const KEY := EventKey(AwardKind, "a")

  // ---------------------------------------------------------------- putting runs together

  lemma {:induction false} ExecJoin(s: System, a: seq<Step>, b: seq<Step>)
    requires Legal(s, a) && Legal(Exec(s, a), b)
    ensures Legal(s, a + b) && Exec(s, a + b) == Exec(Exec(s, a), b)
  {
    hide Apply, Enabled;
    if b == [] {
      assert a + b == a;
    } else {
      var init := b[..|b| - 1];
      ExecJoin(s, a, init);
      assert (a + b)[..|a + b| - 1] == a + init;
    }
  }

  /** Steps of polls, and listening, change no table. */
  ghost predicate KeepsTables(steps: seq<Step>) {
    forall i | 0 <= i < |steps| :: !steps[i].Environment?
  }

  lemma {:induction false} GrowingJoin(s: System, a: seq<Step>, b: seq<Step>)
    requires Legal(s, a) && Growing(s, a) && Legal(Exec(s, a), b) && KeepsTables(b)
    ensures Legal(s, a + b) && Growing(s, a + b)
  {
    hide Apply, Enabled;
    ExecJoin(s, a, b);
    if b == [] {
      assert a + b == a;
    } else {
      var init := b[..|b| - 1];
      GrowingJoin(s, a, init);
      assert (a + b)[..|a + b| - 1] == a + init;
    }
  }

  /** A queue number not in use. */
  lemma UnusedNumber(used: set<nat>) returns (q: nat)
    ensures q !in used
  {
    q := 0;
    var rest := used;
    while rest != {}
      invariant rest <= used && forall x | x in used && x !in rest :: x < q
    {
      var x :| x in rest;
      if x >= q { q := x + 1; }
      rest := rest - {x};
    }
  }

  // ---------------------------------------------------------------- the two polls

  lemma RowsKnown(s: System)
    requires s.tables == ROWS
    ensures var l := RowsNow(s, "n");
      && l.n == "n" && RequisitionOf(l) == "r" && CurrentStatus(l) == "" && Lookup(s.tables.awards, "r", []) == [AWARD]
      && "n" in s.tables.negotiations && Truthy(s.tables.negotiations["n"].requisitionId)
      && l.prev == Lookup(s.sh.state, "n", NO_SNAPSHOT)
  {
  }

  /** Without approval the poll finishes, and with nothing published before it publishes the award. */
  lemma NotApprovedFinishes(s: System, p: nat, l: Local, awards: seq<Award>, visit: seq<Id>, id: Id)
    requires CurrentStatus(l) == ""
    ensures var s' := Proceed(s, p, l, awards, [], visit, id);
      s'.pollers[p] == Done(Some(BuildSnapshot(l, awards, []))) && s'.minted == s.minted
  {
    hide Diff, Finish;
  }

  lemma AwardIsFresh(sh: Shared, l: Local)
    requires sh.published.awards == {} && l.prev == NO_SNAPSHOT
    ensures FreshAwards(sh, l, [AWARD]) == [AWARD]
  {
    assert |AWARD.awardId| == 1;
    assert AwardKey([AWARD][0]) in KeySet([AWARD], AwardKey);
    assert [AWARD][..0] == [];
    assert Fresh([], AwardKey, TruthyIds([AWARD], AwardKey) - {}, {}) == [];
    assert KeySet<Award>([], AwardKey) == {};
  }

  lemma AwardIsPublished(s: System, p: nat, l: Local, visit: seq<Id>, id: Id)
    requires s.sh == START.sh && l.n == "n" && CurrentStatus(l) == "" && l.prev == NO_SNAPSHOT
    ensures ISSUED in Proceed(s, p, l, [AWARD], [], visit, id).sh.bus.log
  {
    hide Proceed, FreshAwards, FreshInvitations, FreshFeedback, FreshDerived, FreshOffers, ClassificationEvents, BuildSnapshot;
    NotApprovedFinishes(s, p, l, [AWARD], visit, id);
    ProceedEffects(s, p, l, [AWARD], [], visit, id);
    AwardIsFresh(s.sh, l);
    assert AwardEvents(l.n, [AWARD])[0] == ISSUED;
    assert ISSUED in AwardEvents(l.n, FreshAwards(s.sh, l, [AWARD]));
    assert ISSUED in DiffEvents(s.sh, l, [AWARD], visit);
  }

  lemma TablesAppearGrowing()
    ensures Legal(START, [Environment(ROWS)]) && Exec(START, [Environment(ROWS)]) == START.(tables := ROWS)
    ensures Growing(START, [Environment(ROWS)])
  {
    hide AfterFetch, WithOrders, NextDelete, Finish, CanChoose;
    assert [Environment(ROWS)][..0] == [];
    assert Legal(START, []) && Exec(START, []) == START;
    assert START.realIds + ({} - START.minted.Keys) == START.realIds;
  }

  /** One poll reads the award, fails to read orders, and announces the award. */
  lemma AwardAnnounced() returns (before: seq<Step>)
    ensures Legal(START, before) && Growing(START, before)
    ensures var s := Exec(START, before);
      s.tables == ROWS && s.pollers.Keys == {1} && s.minted == map[] && s.realIds == {} && ISSUED in s.sh.bus.log
  {
    hide Apply, Enabled, Proceed, RowsNow;
    var s0 := START.(tables := ROWS);
    TablesAppearGrowing();
    RowsKnown(s0);
    var l := RowsNow(s0, "n");
    var steps := PathAwaitsOrders(s0, 1, "n", "x");
    var s1 := At(s0, 1, AwaitOrders(l, [AWARD], None));
    var visit := SomeVisit(NewOffers(l));
    var step := OrdersFailed(1, visit, "x");
    FailedOrders(s1, 1, l, [AWARD], visit, "x");
    LeadsOn(s0, [Start(1, "n")] + steps, s1, step);
    AwardIsPublished(s1, 1, l, visit, "x");
    before := [Environment(ROWS)] + ([Start(1, "n")] + steps + [step]);
    ExecJoin(START, [Environment(ROWS)], [Start(1, "n")] + steps + [step]);
    GrowingJoin(START, [Environment(ROWS)], [Start(1, "n")] + steps + [step]);
  }

  lemma FailedOrders(s: System, p: nat, l: Local, awards: seq<Award>, visit: seq<Id>, id: Id)
    requires p in s.pollers && s.pollers[p] == AwaitOrders(l, awards, None) && CurrentStatus(l) == ""
    requires FreshId(s, id) && Enumerates(visit, NewOffers(l))
    ensures var step := OrdersFailed(p, visit, id);
      && Enabled(s, step) && Apply(s, step) == Proceed(s, p, l, awards, [], visit, id)
      && MovesOnly(s, Apply(s, step), p) && Apply(s, step).minted == s.minted
      && Apply(s, step).pollers[p] == Done(Some(BuildSnapshot(l, awards, [])))
  {
    hide Apply, Proceed, BuildSnapshot;
    var step := OrdersFailed(p, visit, id);
    StepMoves(s, step);
    ResumeDiffs(s, step);
    NotApprovedFinishes(s, p, l, awards, visit, id);
  }

  lemma FailedAwards(s: System, p: nat, l: Local)
    ensures var waiting := At(s, p, AwaitAwards(l, None));
      Enabled(waiting, AwardsFailed(p)) && Apply(waiting, AwardsFailed(p)) == At(s, p, AwaitOrders(l, [], None))
  {
    hide AfterFetch, WithOrders, NextDelete, Finish, CanChoose;
  }

  /** A later poll cannot read the awards, and returns a snapshot without any. */
  lemma PollsWithoutAwards(s: System) returns (polling: seq<Step>, snap: Snapshot)
    requires s.tables == ROWS && 2 !in s.pollers && s.minted == map[] && s.realIds == {}
    ensures Legal(s, [Start(2, "n")] + polling) && AwardsFailed(2) in polling
    ensures var s' := Exec(s, [Start(2, "n")] + polling); 2 in s'.pollers && s'.pollers[2] == Done(Some(snap))
    ensures forall i | 0 <= i < |polling| :: NamesPoll(polling[i])
  {
    hide Apply, Enabled, Proceed, RowsNow, BuildSnapshot;
    RowsKnown(s);
    var l := RowsNow(s, "n");
    var steps := PathAwaitsAwards(s, 2, "n", "y");
    var s1 := At(s, 2, AwaitOrders(l, [], None));
    FailedAwards(s, 2, l);
    LeadsOn(s, [Start(2, "n")] + steps, At(s, 2, AwaitAwards(l, None)), AwardsFailed(2));
    var visit := SomeVisit(NewOffers(l));
    FailedOrders(s1, 2, l, [], visit, "y");
    LeadsOn(s, [Start(2, "n")] + steps + [AwardsFailed(2)], s1, OrdersFailed(2, visit, "y"));
    polling := steps + [AwardsFailed(2), OrdersFailed(2, visit, "y")];
    assert [Start(2, "n")] + polling == [Start(2, "n")] + steps + [AwardsFailed(2)] + [OrdersFailed(2, visit, "y")];
    assert polling[|steps|] == AwardsFailed(2);
    snap := BuildSnapshot(l, [], []);
    AllPolls(s, [Start(2, "n")] + polling, Exec(s, [Start(2, "n")] + polling), polling);
  }

  lemma AllPolls(s: System, steps: seq<Step>, s': System, part: seq<Step>)
    requires Leads(s, steps, s') && |steps| == |part| + 1 && steps[1..] == part
    ensures forall i | 0 <= i < |part| :: NamesPoll(part[i])
  {
    assert forall i | 0 <= i < |part| :: part[i] == steps[i + 1];
  }

  // ---------------------------------------------------------------- the run

  lemma ListenStep(s: System, q: nat)
    requires q !in s.sh.bus.queues
    ensures Legal(s, [Listen("n", q)])
    ensures var s' := Exec(s, [Listen("n", q)]);
      s' == s.(sh := s.sh.(bus := Subscribe(s.sh.bus, "n", q)))
  {
    hide AfterFetch, WithOrders, NextDelete, Finish, CanChoose;
    assert [Listen("n", q)][..0] == [];
    assert Legal(s, []) && Exec(s, []) == s;
  }

  /** Some stream misses an award that has been published. */
  lemma AwardCanBeMissed() returns (before: seq<Step>, q: nat, polling: seq<Step>, snap: Snapshot, i: nat)
    ensures Streams(before, "n", q, [], 2, polling, [], snap) && Legal(START, before)
    ensures var b := Exec(START, before + [Listen("n", q)] + [] + [Start(2, "n")] + polling + []).sh.bus;
      i < |b.log| && b.log[i] == ISSUED && KeyOf(b.log[i]) == Some(KEY) && !Reached(b, q, snap, KEY, i)
  {
    hide Apply, Enabled, Growing, Reached, Subscribe;
    before := AwardAnnounced();
    var s := Exec(START, before);
    q := UnusedNumber(s.sh.bus.queues.Keys);
    ListenStep(s, q);
    var s1 := Exec(s, [Listen("n", q)]);
    polling, snap := PollsWithoutAwards(s1);
    ExecJoin(START, before, [Listen("n", q)]);
    GrowingJoin(START, before, [Listen("n", q)]);
    var listened := before + [Listen("n", q)];
    var rest := [Start(2, "n")] + polling;
    ExecJoin(START, listened, rest);
    GrowingJoin(START, listened, rest);
    assert listened + [] + [Start(2, "n")] + polling == listened + rest;
    assert listened + [] + [Start(2, "n")] + polling + [] == listened + rest;
    assert [] + [Start(2, "n")] + polling + [] == rest;
    assert NeverLeaves(rest, q);
    i :| 0 <= i < |s.sh.bus.log| && s.sh.bus.log[i] == ISSUED;
    StreamParts(before, "n", q, [], 2, polling, [], snap);
    AwardMissedExactly(before, "n", q, [], 2, polling, [], snap, KEY, i);
  }
}
