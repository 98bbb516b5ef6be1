/**
 * Whether concurrent polls can announce a status change twice.  They can: a
 * poll that read an old status and finishes late moves the published status
 * back.  Here: such a run, exactly which runs repeat one, and that polls which
 * do not overlap never do unless the stored status itself returns.
 */
module StatusRepeats {
  import opened Basics
  import opened OrderRows
  import opened EventBus
  import opened Projection
  import opened EventGuards
  import opened StatusChain
  import opened PollMachine
  import opened PollStreams
  import opened PollEffects
  import opened PollRuns
  import opened SyntheticOrderSafety

  // ---------------------------------------------------------------- repeats, in terms of the statuses seen

  /** The moves from one status to a different one, in order. */
  function Moves(ss: seq<string>): seq<(string, string)> {
    if |ss| < 2 then [] else
      var init := ss[..|ss| - 1];
      if ss[|ss| - 2] == ss[|ss| - 1] then Moves(init) else Moves(init) + [(ss[|ss| - 2], ss[|ss| - 1])]
  }

  /** No status is seen again after a different one. */
  ghost predicate NeverReturns(ss: seq<string>) {
    forall i, j, k | 0 <= i <= j <= k < |ss| && ss[i] == ss[k] :: ss[j] == ss[i]
  }

  /** Compression keeps the moves: each of its steps is one of them. */
  lemma {:induction false} CompressMoves(ss: seq<string>)
    ensures var cs, ms := Compress(ss), Moves(ss);
      && |cs| == (if ss == [] then 0 else |ms| + 1)
      && forall i | 0 <= i < |ms| :: ms[i] == (cs[i], cs[i + 1])
  {
    if |ss| > 1 {
      var init := ss[..|ss| - 1];
      CompressMoves(init);
      CompressIsStutterFree(init);
      assert init[|init| - 1] == ss[|ss| - 2];
    } else if |ss| == 1 {
      assert ss[..0] == [] && Compress([]) == [];
    }
  }

  lemma {:induction false} ChangesAreOf(log: seq<Event>, n: Id)
    ensures forall i | 0 <= i < |Changes(log, n)| :: Changes(log, n)[i].StatusChange? && Changes(log, n)[i].negotiationId == n
  {
    if log != [] { ChangesAreOf(log[..|log| - 1], n); }
  }

  /** The published changes are the first status and then the moves. */
  lemma ChangesAreMoves(log: seq<Event>, n: Id, seen: seq<string>)
    requires Chained(Changes(log, n)) && Spells(Changes(log, n), Compress(seen))
    ensures var es, ms := Changes(log, n), Moves(seen);
      && |es| == (if seen == [] then 0 else |ms| + 1)
      && (forall i | 0 <= i < |es| :: es[i].StatusChange? && es[i].negotiationId == n)
      && (es != [] ==> es[0].previous == None)
      && forall i | 0 <= i < |ms| :: es[i + 1] == StatusChange(n, ms[i].1, Some(ms[i].0))
  {
    var es, ms := Changes(log, n), Moves(seen);
    ChangesAreOf(log, n);
    CompressMoves(seen);
    if es != [] { assert Linked(es, 0); }
    forall i | 0 <= i < |ms| ensures es[i + 1] == StatusChange(n, ms[i].1, Some(ms[i].0)) {
      assert Linked(es, i + 1);
    }
  }

  /**
   * Exactly when two identical status changes are published: when some move
   * from one status to another occurs twice among the statuses polls finished with.
   */
  lemma StatusRepeatsExactlyWhenMoveRecurs(s: System, n: Id)
    requires Reachable(s)
    ensures NoDuplicates(Changes(s.sh.bus.log, n)) <==> NoDuplicates(Moves(StatusesSeen(s.sh.processed, n)))
  {
    StatusChangesChain(s, n);
    MovesAndChanges(s.sh.bus.log, n, StatusesSeen(s.sh.processed, n));
  }

  lemma MovesAndChanges(log: seq<Event>, n: Id, seen: seq<string>)
    requires Chained(Changes(log, n)) && Spells(Changes(log, n), Compress(seen))
    ensures NoDuplicates(Changes(log, n)) <==> NoDuplicates(Moves(seen))
  {
    var es, ms := Changes(log, n), Moves(seen);
    ChangesAreMoves(log, n, seen);
    hide Moves, Changes, Compress;
    if NoDuplicates(es) {
      forall i, j | 0 <= i < j < |ms| ensures ms[i] != ms[j] {
        assert es[i + 1] != es[j + 1];
      }
    }
    if NoDuplicates(ms) {
      forall i, j | 0 <= i < j < |es| ensures es[i] != es[j] {
        assert es[j] == StatusChange(n, ms[j - 1].1, Some(ms[j - 1].0));
        if i > 0 {
          assert es[i] == StatusChange(n, ms[i - 1].1, Some(ms[i - 1].0));
          assert ms[i - 1] != ms[j - 1];
        }
      }
    }
  }

  lemma {:induction false} CompressDistinct(ss: seq<string>)
    ensures NoDuplicates(Compress(ss)) <==> NeverReturns(ss)
  {
    if ss == [] {
      assert Compress(ss) == [];
    } else {
      var init, s := ss[..|ss| - 1], ss[|ss| - 1];
      CompressDistinct(init);
      CompressIsStutterFree(init);
      assert ss == init + [s];
      NeverReturnsOneMore(init, s);
      var rest := Compress(init);
      assert forall x :: x in rest <==> x in init by { SameElements(rest, init); }
      if !(rest != [] && rest[|rest| - 1] == s) { DistinctOneMore(rest, s); }
    }
  }

  lemma SameElements(a: seq<string>, b: seq<string>)
    requires Elements(a) == Elements(b)
    ensures forall x :: x in a <==> x in b
  {
    forall x ensures x in a <==> x in b { assert x in a <==> x in Elements(a); assert x in b <==> x in Elements(b); }
  }

  lemma DistinctOneMore(ss: seq<string>, s: string)
    ensures NoDuplicates(ss + [s]) <==> NoDuplicates(ss) && s !in ss
  {
    var all := ss + [s];
    if NoDuplicates(all) {
      forall i, j | 0 <= i < j < |ss| ensures ss[i] != ss[j] { assert all[i] != all[j]; }
      forall i | 0 <= i < |ss| ensures ss[i] != s { assert all[i] != all[|ss|]; }
    }
  }

  lemma NeverReturnsOneMore(ss: seq<string>, s: string)
    ensures NeverReturns(ss + [s]) <==> NeverReturns(ss) && (s in ss ==> ss[|ss| - 1] == s)
  {
    var all := ss + [s];
    if NeverReturns(all) {
      forall i, j, k | 0 <= i <= j <= k < |ss| && ss[i] == ss[k] ensures ss[j] == ss[i] {
        assert all[i] == all[k] && all[j] == ss[j];
      }
      if s in ss {
        var i :| 0 <= i < |ss| && ss[i] == s;
        assert all[i] == all[|ss|] && all[|ss| - 1] == ss[|ss| - 1];
      }
    }
    if NeverReturns(ss) && (s in ss ==> ss[|ss| - 1] == s) {
      forall i, j, k | 0 <= i <= j <= k < |all| && all[i] == all[k] ensures all[j] == all[i] {
        if k == |ss| && i < |ss| && j < |ss| { assert ss[i] == ss[|ss| - 1]; }
      }
    }
  }

  ghost predicate EachStatusOnce(es: seq<Event>) {
    forall i, j | 0 <= i < j < |es| && es[i].StatusChange? && es[j].StatusChange? :: es[i].status != es[j].status
  }

  /** No status is announced twice exactly when no status polls finished with recurs after a different one. */
  lemma EachStatusOnceExactlyWhenNoneReturns(s: System, n: Id)
    requires Reachable(s)
    ensures EachStatusOnce(Changes(s.sh.bus.log, n)) <==> NeverReturns(StatusesSeen(s.sh.processed, n))
  {
    StatusChangesChain(s, n);
    CompressDistinct(StatusesSeen(s.sh.processed, n));
    SpelledOnce(Changes(s.sh.bus.log, n), Compress(StatusesSeen(s.sh.processed, n)));
  }

  lemma SpelledOnce(es: seq<Event>, ss: seq<string>)
    requires Spells(es, ss)
    ensures EachStatusOnce(es) <==> NoDuplicates(ss)
  {
    if EachStatusOnce(es) {
      forall i, j | 0 <= i < j < |ss| ensures ss[i] != ss[j] { assert es[i].status != es[j].status; }
    }
  }

  // ---------------------------------------------------------------- what a step processes

  /** The status a poll has read and will announce. */
  ghost function Held(pc: Pc): Option<string> {
    match pc
    case Fetching(_, neg, _, _, _) =>
      if neg.None? then None else Some(if neg.value.Some? then neg.value.value.status else "")
    case AwaitAwards(l, _) => Some(CurrentStatus(l))
    case AwaitOrders(l, _, _) => Some(CurrentStatus(l))
    case Deleting(l, _, _, _) => Some(CurrentStatus(l))
    case AwaitPut(l, _, _) => Some(CurrentStatus(l))
    case Done(_) => None
  }

  ghost function StatusOf(t: Tables, n: Id): string {
    if n in t.negotiations then t.negotiations[n].status else ""
  }

  ghost function Seen(s: System, n: Id): seq<string> { StatusesSeen(s.sh.processed, n) }

  /** The step finishes a poll of `n` that holds `status`. */
  ghost predicate Finishes(s: System, step: Step, n: Id, status: string) {
    && NamesPoll(step) && step.p in s.pollers && Working(s.pollers[step.p], n)
    && Held(s.pollers[step.p]) == Some(status) && Truthy(status)
  }

  lemma SeenMore(processed: seq<(Id, string)>, l: Local, n: Id)
    ensures StatusesSeen(processed + Processed(l), n)
         == StatusesSeen(processed, n) + if l.n == n && Truthy(CurrentStatus(l)) then [CurrentStatus(l)] else []
  {
    if Truthy(CurrentStatus(l)) { SeenOneMore(processed, l.n, CurrentStatus(l), n); } else { assert processed + [] == processed; }
  }

  lemma PublisherHolds(s: System, step: Step)
    requires Enabled(s, step) && (Resumes(step) || step.PutDone?)
    ensures var l := PublisherLocal(s, step);
      step.p in s.pollers && Working(s.pollers[step.p], l.n) && Held(s.pollers[step.p]) == Some(CurrentStatus(l))
    ensures forall n | Working(s.pollers[step.p], n) :: n == PublisherLocal(s, step).n
  {
    hide CanChoose;
  }

  lemma PutProcesses(s: System, step: Step)
    requires Enabled(s, step) && step.PutDone?
    ensures Apply(s, step).sh.processed == s.sh.processed + Processed(s.pollers[step.p].l)
  {
    hide Finish;
    FinishEffects(s.sh, s.pollers[step.p].l, s.pollers[step.p].snapshot, []);
  }

  lemma StepProcesses(s: System, step: Step, n: Id)
    requires Enabled(s, step)
    ensures Seen(Apply(s, step), n) == Seen(s, n)
         || exists status :: Finishes(s, step, n, status) && Seen(Apply(s, step), n) == Seen(s, n) + [status]
  {
    hide Enabled, Apply, Proceed, Diffs, PublisherLocal, PublisherAwards, OrdersInHand, StatusesSeen, CurrentStatus, Held, Working;
    if !Resumes(step) && !step.PutDone? {
      OtherStepsAreQuiet(s, step);
    } else {
      var l := PublisherLocal(s, step);
      PublisherHolds(s, step);
      SeenMore(s.sh.processed, l, n);
      ResumeProcesses(s, step);
      if l.n == n && Truthy(CurrentStatus(l)) { assert Finishes(s, step, n, CurrentStatus(l)); }
      assert Seen(s, n) + [] == Seen(s, n);
    }
  }

  lemma ResumeProcesses(s: System, step: Step)
    requires Enabled(s, step) && (Resumes(step) || step.PutDone?)
    ensures var was, now := s.sh.processed, Apply(s, step).sh.processed;
      now == was || now == was + Processed(PublisherLocal(s, step))
  {
    if step.PutDone? {
      hide Apply;
      PutProcesses(s, step);
    } else {
      hide Enabled, Apply, Proceed, Diffs, PublisherLocal, PublisherAwards, OrdersInHand;
      if Diffs(s, step) {
        ResumeDiffs(s, step);
        ProceedProcesses(s.(sh := Noted(s, step)), step.p, PublisherLocal(s, step), PublisherAwards(s, step), OrdersInHand(s, step),
                         step.visit, step.id);
      } else {
        ResumeWaits(s, step);
      }
    }
  }

  lemma ProceedProcesses(s: System, p: nat, l: Local, awards: seq<Award>, orders: seq<Order>, visit: seq<Id>, id: Id)
    ensures var was, now := s.sh.processed, Proceed(s, p, l, awards, orders, visit, id).sh.processed;
      now == was || now == was + Processed(l)
  {
    hide Proceed, Processed, DiffEvents;
    ProceedEffects(s, p, l, awards, orders, visit, id);
  }

  /** A poll keeps the status it holds; it gets it from the table as it is. */
  lemma StepHolds(s: System, step: Step, n: Id, p: nat)
    requires Enabled(s, step) && p in Apply(s, step).pollers && Working(Apply(s, step).pollers[p], n)
    requires Held(Apply(s, step).pollers[p]).Some?
    ensures p in s.pollers && Working(s.pollers[p], n)
    ensures Held(s.pollers[p]).Some? ==> Held(Apply(s, step).pollers[p]) == Held(s.pollers[p])
    ensures Held(s.pollers[p]).None? ==> Held(Apply(s, step).pollers[p]) == Some(StatusOf(s.tables, n)) && !step.Environment?
  {
    if NamesPoll(step) {
      if step.p == p {
        MoverKeepsHeld(s, step, n);
      } else {
        hide Apply, Enabled;
        StepMoves(s, step);
      }
    } else {
      hide Apply, Enabled;
      OtherPollersStay(s, step);
    }
  }

  lemma MoverKeepsHeld(s: System, step: Step, n: Id)
    requires Enabled(s, step) && NamesPoll(step) && step.p in Apply(s, step).pollers
    requires Working(Apply(s, step).pollers[step.p], n) && Held(Apply(s, step).pollers[step.p]).Some?
    ensures step.p in s.pollers && Working(s.pollers[step.p], n)
    ensures Held(s.pollers[step.p]).Some? ==> Held(Apply(s, step).pollers[step.p]) == Held(s.pollers[step.p])
    ensures Held(s.pollers[step.p]).None? ==> Held(Apply(s, step).pollers[step.p]) == Some(StatusOf(s.tables, n))
  {
    if Resumes(step) {
      hide Enabled, Apply, Proceed, Diffs, PublisherLocal, PublisherAwards, OrdersInHand;
      PublisherHolds(s, step);
      if Diffs(s, step) {
        ResumeDiffs(s, step);
        ProceedEffects(s.(sh := Noted(s, step)), step.p, PublisherLocal(s, step), PublisherAwards(s, step), OrdersInHand(s, step),
                       step.visit, step.id);
      } else {
        ResumeWaits(s, step);
      }
    } else {
      hide Finish, CanChoose;
    }
  }

  // ---------------------------------------------------------------- polls that do not overlap

  /** The stored status of `n` at the start of a run and after each step. */
  ghost function History(s: System, steps: seq<Step>, n: Id): (h: seq<string>)
    requires Legal(s, steps)
    ensures |h| == |steps| + 1
    decreases |steps|
  {
    if steps == [] then [StatusOf(s.tables, n)]
    else History(s, steps[..|steps| - 1], n) + [StatusOf(Exec(s, steps).tables, n)]
  }

  /** Once left, a stored status does not come back; rows without a status are passed over. */
  ghost predicate StatusOnlyAdvances(h: seq<string>) {
    forall i, j, k | 0 <= i <= j <= k < |h| && h[i] == h[k] && Truthy(h[i]) && Truthy(h[j]) :: h[j] == h[i]
  }

  /** `ts` and `t` say when the statuses seen, and the one held now, were read. */
  ghost predicate ReadAt(s: System, n: Id, h: seq<string>, ts: seq<nat>, t: nat) {
    && |ts| == |Seen(s, n)| && t < |h|
    && (forall i | 0 <= i < |ts| :: ts[i] <= t && Seen(s, n)[i] == h[ts[i]] && Truthy(h[ts[i]]))
    && (forall i, j | 0 <= i < j < |ts| :: ts[i] <= ts[j])
    && (forall p | p in s.pollers && Working(s.pollers[p], n) && Held(s.pollers[p]).Some? :: Held(s.pollers[p]) == Some(h[t]))
  }

  lemma StepReadAt(s: System, step: Step, n: Id, h: seq<string>, ts: seq<nat>, t: nat) returns (ts': seq<nat>, t': nat)
    requires Enabled(s, step) && AtMostOneWorks(s, n) && ReadAt(s, n, h, ts, t)
    requires |h| > 0 && h[|h| - 1] == StatusOf(s.tables, n)
    ensures ReadAt(Apply(s, step), n, h + [StatusOf(Apply(s, step).tables, n)], ts', t')
  {
    hide Apply, Enabled, Seen, Held, Working, StatusOf;
    var s' := Apply(s, step);
    var h' := h + [StatusOf(s'.tables, n)];
    StepProcesses(s, step, n);
    ts' := ts;
    if Seen(s', n) != Seen(s, n) {
      assert exists status :: Finishes(s, step, n, status) && Seen(s', n) == Seen(s, n) + [status];
      ts' := ts + [t];
    }
    t' := if exists p :: p in s.pollers && Working(s.pollers[p], n) && Held(s.pollers[p]).Some? then t else |h| - 1;
    forall p | p in s'.pollers && Working(s'.pollers[p], n) && Held(s'.pollers[p]).Some?
      ensures Held(s'.pollers[p]) == Some(h'[t'])
    {
      StepHolds(s, step, n, p);
    }
  }

  lemma {:induction false} RunReadAt(steps: seq<Step>, n: Id) returns (ts: seq<nat>, t: nat)
    requires Legal(START, steps) && OneAtATime(START, steps, n)
    ensures AtMostOneWorks(Exec(START, steps), n)
    ensures var h := History(START, steps, n);
      h[|h| - 1] == StatusOf(Exec(START, steps).tables, n) && ReadAt(Exec(START, steps), n, h, ts, t)
  {
    hide Apply, Enabled, ReadAt;
    if steps == [] {
      ts, t := [], 0;
      StartReadAt(n);
    } else {
      var init, last := steps[..|steps| - 1], steps[|steps| - 1];
      ts, t := RunReadAt(init, n);
      ts, t := StepReadAt(Exec(START, init), last, n, History(START, init, n), ts, t);
      StepKeepsAtMostOne(Exec(START, init), last, n);
    }
  }

  lemma StartReadAt(n: Id)
    ensures ReadAt(START, n, [StatusOf(START.tables, n)], [], 0)
  {
  }

  lemma SeenNeverReturns(s: System, n: Id, h: seq<string>, ts: seq<nat>, t: nat)
    requires ReadAt(s, n, h, ts, t) && StatusOnlyAdvances(h)
    ensures NeverReturns(Seen(s, n))
  {
    hide Seen;
    var seen := Seen(s, n);
    forall i, j, k | 0 <= i <= j <= k < |seen| && seen[i] == seen[k] ensures seen[j] == seen[i] {
      assert h[ts[i]] == h[ts[k]] && ts[i] <= ts[j] <= ts[k];
    }
  }

  /**
   * When polls of a negotiation do not overlap and its stored status never
   * returns to an earlier one, each status is announced at most once; in
   * particular no status change is published twice.
   */
  lemma SerialPollsAnnounceEachStatusOnce(steps: seq<Step>, n: Id)
    requires Legal(START, steps) && OneAtATime(START, steps, n)
    requires StatusOnlyAdvances(History(START, steps, n))
    ensures EachStatusOnce(Changes(Exec(START, steps).sh.bus.log, n))
    ensures NoDuplicates(Changes(Exec(START, steps).sh.bus.log, n))
  {
    hide Apply, Enabled, ReadAt, StatusOnlyAdvances;
    var s := Exec(START, steps);
    var ts, t := RunReadAt(steps, n);
    SeenNeverReturns(s, n, History(START, steps, n), ts, t);
    assert Reachable(s);
    EachStatusOnceExactlyWhenNoneReturns(s, n);
    ChangesAreOf(s.sh.bus.log, n);
  }

  // ---------------------------------------------------------------- a run that repeats one

  /** A negotiation without a requisition: its polls suspend once. */
  function Only(status: string): Tables {
    Tables(map["n" := Negotiation("", status, "", "")], map[], map[], map[], map[], map[])
  }

  /** What the published status of "n" is, and what has been published of it. */
  ghost predicate Stands(s: System, es: seq<Event>, last: Option<string>) {
    Changes(s.sh.bus.log, "n") == es && LastStatus(s.sh.published, "n") == last
  }

  lemma ReadRows(status: string, sh: Shared) returns (l: Local)
    ensures l == LocalOf(sh, Reading(Only(status), "n", 4), map[])
    ensures l.n == "n" && CurrentStatus(l) == status && RequisitionOf(l) == "" && l.fetched.negotiation.Some?
  {
    l := LocalOf(sh, Reading(Only(status), "n", 4), map[]);
  }

  lemma DiffChangesNothing(sh: Shared, l: Local, n: Id)
    ensures Changes(DiffEvents(sh, l, [], []), n) == []
  {
    hide FreshInvitations, FreshFeedback, FreshDerived, FreshOffers, FreshAwards, DefinesClassification;
    NoChanges(DiffEvents(sh, l, [], []), n);
  }

  /** A poll that holds `status`, resuming, announces it if it is not the last one announced. */
  lemma PollAnnounces(s: System, p: nat, status: string, id: Id, es: seq<Event>, last: Option<string>) returns (s': System)
    requires Reachable(s) && p in s.pollers && s.pollers[p] == Reading(Only(status), "n", 4) && FreshId(s, id)
    requires Truthy(status) && Stands(s, es, last) && last != Some(status)
    ensures Reachable(s') && MovesOnly(s, s', p) && s'.minted.Keys <= s.minted.Keys + {id}
    ensures Stands(s', es + [StatusChange("n", status, last)], Some(status))
  {
    hide Proceed, Changes, DiffEvents, Only;
    var l := ReadRows(status, s.sh);
    NothingPriced(l, status, s.sh);
    var step := FetchDone(p, map[], [], id);
    s' := Apply(s, step);
    Then(s, step);
    StepMoves(s, step);
    assert s' == Proceed(s, p, l, [], [], [], id);
    ProceedOrders(s, p, l, [], [], [], id);
    FinishesAtOnce(s, p, l, id, es, last);
  }

  lemma NothingPriced(l: Local, status: string, sh: Shared)
    requires l == LocalOf(sh, Reading(Only(status), "n", 4), map[])
    ensures Enumerates([], NewOffers(l))
  {
    assert Named(l) == [];
    assert Fingerprints([]) == {};
  }

  lemma FinishesAtOnce(s: System, p: nat, l: Local, id: Id, es: seq<Event>, last: Option<string>)
    requires l.n == "n" && Truthy(CurrentStatus(l)) && Stands(s, es, last) && last != Some(CurrentStatus(l))
    ensures Stands(Proceed(s, p, l, [], [], [], id), es + [StatusChange("n", CurrentStatus(l), last)], Some(CurrentStatus(l)))
  {
    hide Diff, Finish, Changes, DiffEvents;
    var sh1 := Diff(s.sh, l, [], [], []);
    assert TruthyIds<Award>([], AwardKey) == {};
    ProceedEffects(s, p, l, [], [], [], id);
    DiffChangesNothing(s.sh, l, "n");
    var log1 := s.sh.bus.log + DiffEvents(s.sh, l, [], []);
    ChangesAppend(s.sh.bus.log, DiffEvents(s.sh, l, [], []), "n");
    var po, st := PoEvents(l.n, FreshOrders(sh1, l, [])), StatusEvents(s.sh, l);
    ChangesAppend(log1, po + st, "n");
    ChangesAppend(po, st, "n");
    NoChanges(po, "n");
    assert [] + st == st;
    ChangesOneMore([], st[0], "n");
    assert Changes([], "n") == [] by { NoChanges([], "n"); }
    assert es + [] == es && [] + Changes(st, "n") == Changes(st, "n");
  }

  lemma StatusMoves(s: System, status: string)
    requires Reachable(s) && s.tables.orders == map[]
    ensures Reachable(s.(tables := Only(status)))
  {
    hide AfterFetch, WithOrders, NextDelete, Finish, CanChoose;
    Then(s, Environment(Only(status)));
    assert s.realIds + ({} - s.minted.Keys) == s.realIds;
    assert Apply(s, Environment(Only(status))) == s.(tables := Only(status));
  }

  /** A poll starts, reads and resumes without another in between. */
  lemma WholePoll(s: System, p: nat, status: string, id: Id, es: seq<Event>, last: Option<string>) returns (s': System)
    requires Reachable(s) && p !in s.pollers && s.tables == Only(status) && FreshId(s, id)
    requires Truthy(status) && Stands(s, es, last) && last != Some(status)
    ensures Reachable(s') && MovesOnly(s, s', p) && s'.minted.Keys <= s.minted.Keys + {id}
    ensures Stands(s', es + [StatusChange("n", status, last)], Some(status))
  {
    hide Reachable, Changes, Reading;
    PollReads(s, p, "n");
    s' := PollAnnounces(At(s, p, Reading(Only(status), "n", 4)), p, status, id, es, last);
  }

  const X_FIRST := StatusChange("n", "X", None)
  const X_TO_Y := StatusChange("n", "Y", Some("X"))
  const Y_TO_X := StatusChange("n", "X", Some("Y"))

  lemma LateReader() returns (s: System)
    ensures Reachable(s) && Stands(s, [X_FIRST], Some("X")) && s.tables == Only("Y")
    ensures s.pollers.Keys == {1, 2} && s.pollers[2] == Reading(Only("X"), "n", 4)
    ensures s.minted.Keys <= {"a"} && s.realIds == {}
  {
    hide Reachable, Changes, Reading, Only, LastStatus;
    OnlyHasNoOrders("X");
    TablesAppear(Only("X"));
    NothingPublished();
    var s1 := WholePoll(START.(tables := Only("X")), 1, "X", "a", [], None);
    PollReads(s1, 2, "n");
    var s2 := At(s1, 2, Reading(Only("X"), "n", 4));
    StatusMoves(s2, "Y");
    s := s2.(tables := Only("Y"));
    assert [] + [X_FIRST] == [X_FIRST];
  }

  /**
   * The stored status moves once, from X to Y, and that move is announced
   * twice: a poll that had read X resumes after another has announced Y.
   */
  lemma LatePollRepeatsStatusChange()
    ensures exists s :: Reachable(s) && Changes(s.sh.bus.log, "n") == [X_FIRST, X_TO_Y, Y_TO_X, X_TO_Y]
  {
    hide Reachable, Changes, Reading, Only, LastStatus;
    var s3 := LateReader();
    var s4 := WholePoll(s3, 3, "Y", "b", [X_FIRST], Some("X"));
    assert s4.pollers[2] == s3.pollers[2];
    var s5 := PollAnnounces(s4, 2, "X", "c", [X_FIRST] + [X_TO_Y], Some("Y"));
    var s6 := WholePoll(s5, 4, "Y", "d", [X_FIRST] + [X_TO_Y] + [Y_TO_X], Some("X"));
    assert [X_FIRST] + [X_TO_Y] + [Y_TO_X] + [X_TO_Y] == [X_FIRST, X_TO_Y, Y_TO_X, X_TO_Y];
  }

  lemma OnlyHasNoOrders(status: string)
    ensures Only(status).orders == map[]
  {
  }

  lemma NothingPublished()
    ensures Changes(START.sh.bus.log, "n") == [] && LastStatus(START.sh.published, "n") == None
  {
  }
}
