/**
 * Building blocks for runs: how a poll that nothing disturbs gets from its
 * start to its first decision, in any reachable state.
 */
module PollRuns {
  import opened Basics
  import opened OrderRows
  import opened Projection
  import opened PollMachine

  function At(s: System, p: nat, pc: Pc): System {
    s.(pollers := s.pollers[p := pc])
  }

  lemma Then(s: System, step: Step)
    requires Reachable(s) && Enabled(s, step)
    ensures Reachable(Apply(s, step))
  {
    hide Apply;
    var steps :| Legal(START, steps) && Exec(START, steps) == s;
    ExecOne(START, steps, step);
  }

  lemma {:induction false} RunIsReachable(s: System, steps: seq<Step>)
    requires Reachable(s) && Legal(s, steps)
    ensures Reachable(Exec(s, steps))
  {
    hide Apply;
    if steps != [] {
      RunIsReachable(s, steps[..|steps| - 1]);
      Then(Exec(s, steps[..|steps| - 1]), steps[|steps| - 1]);
    }
  }

  lemma StartIsReachable()
    ensures Reachable(START)
  {
    assert Legal(START, []) && Exec(START, []) == START;
  }

  // ---------------------------------------------------------------- reading

  /** A poll of `n` after `k` of its four reads. */
  function Reading(t: Tables, n: Id, k: nat): Pc {
    Fetching(n,
             if k < 1 then None else Some(if n in t.negotiations then Some(t.negotiations[n]) else None),
             if k < 2 then None else Some(Lookup(t.bids, n, [])),
             if k < 3 then None else Some(Lookup(t.invitations, n, [])),
             if k < 4 then None else Some(Lookup(t.feedback, n, [])))
  }

  /** The steps are all steps of polls, and lead from one state to the other. */
  ghost predicate Leads(s: System, steps: seq<Step>, s': System) {
    Legal(s, steps) && Exec(s, steps) == s' && forall i | 0 <= i < |steps| :: NamesPoll(steps[i])
  }

  lemma LeadsNowhere(s: System)
    ensures Leads(s, [], s)
  {
  }

  lemma LeadsOn(s: System, steps: seq<Step>, s1: System, step: Step)
    requires Leads(s, steps, s1) && Enabled(s1, step) && NamesPoll(step)
    ensures Leads(s, steps + [step], Apply(s1, step))
  {
    hide Apply, Enabled;
    ExecOne(s, steps, step);
  }

  lemma ReadStep(s: System, p: nat, pc: Pc)
    ensures Enabled(At(s, p, pc), Read(p)) && Apply(At(s, p, pc), Read(p)) == At(s, p, ReadNext(s.tables, pc))
  {
    hide AfterFetch, WithOrders, NextDelete, Finish, CanChoose, ReadNext;
  }

  lemma StartStep(s: System, p: nat, n: Id)
    requires p !in s.pollers
    ensures Enabled(s, Start(p, n)) && Apply(s, Start(p, n)) == At(s, p, Reading(s.tables, n, 0))
  {
    hide AfterFetch, WithOrders, NextDelete, Finish, CanChoose;
  }

  lemma ReadingNext(t: Tables, n: Id, k: nat)
    requires k < 4
    ensures ReadNext(t, Reading(t, n, k)) == Reading(t, n, k + 1)
  {
  }

  lemma PathReads(s: System, p: nat, n: Id) returns (steps: seq<Step>)
    requires p !in s.pollers
    ensures Leads(s, [Start(p, n)] + steps, At(s, p, Reading(s.tables, n, 4)))
  {
    hide Apply, Enabled, Leads, Reading, ReadNext, At;
    StartStep(s, p, n);
    LeadsNowhere(s);
    LeadsOn(s, [], s, Start(p, n));
    steps := [];
    assert [] + [Start(p, n)] == [Start(p, n)] + steps;
    for k := 0 to 4
      invariant Leads(s, [Start(p, n)] + steps, At(s, p, Reading(s.tables, n, k)))
    {
      ReadingNext(s.tables, n, k);
      ReadStep(s, p, Reading(s.tables, n, k));
      LeadsOn(s, [Start(p, n)] + steps, At(s, p, Reading(s.tables, n, k)), Read(p));
      assert [Start(p, n)] + steps + [Read(p)] == [Start(p, n)] + (steps + [Read(p)]);
      steps := steps + [Read(p)];
    }
  }

  lemma PollReads(s: System, p: nat, n: Id)
    requires Reachable(s) && p !in s.pollers
    ensures Reachable(At(s, p, Reading(s.tables, n, 4)))
  {
    var steps := PathReads(s, p, n);
    LeadsReachable(s, [Start(p, n)] + steps, At(s, p, Reading(s.tables, n, 4)));
  }

  lemma LeadsReachable(s: System, steps: seq<Step>, s': System)
    requires Reachable(s) && Leads(s, steps, s')
    ensures Reachable(s')
  {
    hide Apply, Enabled;
    RunIsReachable(s, steps);
  }

  // ---------------------------------------------------------------- waiting for the orders

  /** What a poll knows that has read the tables as they are, with no roster of names. */
  function RowsNow(s: System, n: Id): Local {
    LocalOf(s.sh, Reading(s.tables, n, 4), map[])
  }

  lemma FetchStep(s: System, p: nat, n: Id, visit: seq<Id>, id: Id)
    requires FreshId(s, id) && Enumerates(visit, NewOffers(RowsNow(s, n)))
    requires n in s.tables.negotiations && Truthy(s.tables.negotiations[n].requisitionId)
    ensures var read, step := At(s, p, Reading(s.tables, n, 4)), FetchDone(p, map[], visit, id);
      Enabled(read, step) && Apply(read, step) == At(s, p, AwaitAwards(RowsNow(s, n), None))
  {
    hide Proceed, Enumerates, NewOffers;
  }

  lemma PathAwaitsAwards(s: System, p: nat, n: Id, id: Id) returns (steps: seq<Step>)
    requires p !in s.pollers && FreshId(s, id)
    requires n in s.tables.negotiations && Truthy(s.tables.negotiations[n].requisitionId)
    ensures Leads(s, [Start(p, n)] + steps, At(s, p, AwaitAwards(RowsNow(s, n), None)))
  {
    hide Apply, Enabled, Leads, Reading, At, RowsNow;
    steps := PathReads(s, p, n);
    var visit := SomeVisit(NewOffers(RowsNow(s, n)));
    FetchStep(s, p, n, visit, id);
    LeadsOn(s, [Start(p, n)] + steps, At(s, p, Reading(s.tables, n, 4)), FetchDone(p, map[], visit, id));
    assert [Start(p, n)] + steps + [FetchDone(p, map[], visit, id)] == [Start(p, n)] + (steps + [FetchDone(p, map[], visit, id)]);
    steps := steps + [FetchDone(p, map[], visit, id)];
  }

  lemma AwardsRead(t: Tables, l: Local)
    ensures ReadNext(t, AwaitAwards(l, None)) == AwaitAwards(l, Some(Lookup(t.awards, RequisitionOf(l), [])))
  {
  }

  lemma AwardsStep(s: System, p: nat, l: Local, awards: seq<Award>)
    ensures var read := At(s, p, AwaitAwards(l, Some(awards)));
      Enabled(read, AwardsDone(p)) && Apply(read, AwardsDone(p)) == At(s, p, AwaitOrders(l, awards, None))
  {
    hide AfterFetch, WithOrders, NextDelete, Finish, CanChoose;
  }

  lemma PathAwaitsOrders(s: System, p: nat, n: Id, id: Id) returns (steps: seq<Step>)
    requires p !in s.pollers && FreshId(s, id)
    requires n in s.tables.negotiations && Truthy(s.tables.negotiations[n].requisitionId)
    ensures Leads(s, [Start(p, n)] + steps,
                  At(s, p, AwaitOrders(RowsNow(s, n), Lookup(s.tables.awards, RequisitionOf(RowsNow(s, n)), []), None)))
  {
    hide Apply, Enabled, Leads, Reading, At, RowsNow, ReadNext;
    var l := RowsNow(s, n);
    var awards := Lookup(s.tables.awards, RequisitionOf(l), []);
    steps := PathAwaitsAwards(s, p, n, id);
    AwardsRead(s.tables, l);
    ReadStep(s, p, AwaitAwards(l, None));
    LeadsOn(s, [Start(p, n)] + steps, At(s, p, AwaitAwards(l, None)), Read(p));
    AwardsStep(s, p, l, awards);
    LeadsOn(s, [Start(p, n)] + steps + [Read(p)], At(s, p, AwaitAwards(l, Some(awards))), AwardsDone(p));
    assert [Start(p, n)] + steps + [Read(p)] + [AwardsDone(p)] == [Start(p, n)] + (steps + [Read(p), AwardsDone(p)]);
    steps := steps + [Read(p), AwardsDone(p)];
  }

  /** Undisturbed, a poll whose negotiation names a requisition gets to its order read without changing anything else. */
  lemma PollAwaitsOrders(s: System, p: nat, n: Id, id: Id)
    requires Reachable(s) && p !in s.pollers && FreshId(s, id)
    requires n in s.tables.negotiations && Truthy(s.tables.negotiations[n].requisitionId)
    ensures Reachable(At(s, p, AwaitOrders(RowsNow(s, n), Lookup(s.tables.awards, RequisitionOf(RowsNow(s, n)), []), None)))
  {
    hide Leads, RowsNow;
    var steps := PathAwaitsOrders(s, p, n, id);
    LeadsReachable(s, [Start(p, n)] + steps,
                   At(s, p, AwaitOrders(RowsNow(s, n), Lookup(s.tables.awards, RequisitionOf(RowsNow(s, n)), []), None)));
  }

  lemma PollScans(s: System, p: nat, l: Local, awards: seq<Award>, listed: seq<Order>)
    requires Reachable(At(s, p, AwaitOrders(l, awards, None))) && IsScan(listed, s.tables.orders)
    ensures Reachable(At(s, p, AwaitOrders(l, awards, Some(listed))))
  {
    hide AfterFetch, WithOrders, NextDelete, Finish, Enumerates, IsScan;
    var before := At(s, p, AwaitOrders(l, awards, None));
    Then(before, Scan(p, listed));
    assert Apply(before, Scan(p, listed)) == At(s, p, AwaitOrders(l, awards, Some(listed)));
  }

  lemma SameRows(s: System, s': System, n: Id)
    requires s'.sh == s.sh && s'.tables == s.tables
    ensures RowsNow(s', n) == RowsNow(s, n)
  {
  }

  lemma TablesAppear(t: Tables)
    requires t.orders == map[]
    ensures Reachable(START.(tables := t))
  {
    hide AfterFetch, WithOrders, NextDelete, Finish, CanChoose;
    StartIsReachable();
    Then(START, Environment(t));
    assert Apply(START, Environment(t)) == START.(tables := t);
  }
}
