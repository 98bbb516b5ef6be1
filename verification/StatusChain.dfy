/**
 * Status changes of one negotiation form a chain: the published sequence is
 * the sequence of statuses that finished polls saw, with repeats of the last
 * one dropped, and each event names the status before it.
 */
module StatusChain {
  import opened Basics
  import opened OrderRows
  import opened EventBus
  import opened Projection

  /** The status changes of negotiation `n`, in the order they were published. */
  ghost function Changes(log: seq<Event>, n: Id): seq<Event> {
    if log == [] then [] else
      var rest := Changes(log[..|log| - 1], n);
      var e := log[|log| - 1];
      if e.StatusChange? && e.negotiationId == n then rest + [e] else rest
  }

  ghost function StatusesSeen(processed: seq<(Id, string)>, n: Id): seq<string> {
    if processed == [] then [] else
      var rest := StatusesSeen(processed[..|processed| - 1], n);
      var p := processed[|processed| - 1];
      if p.0 == n then rest + [p.1] else rest
  }

  function Compress(ss: seq<string>): seq<string> {
    if ss == [] then [] else
      var rest := Compress(ss[..|ss| - 1]);
      var s := ss[|ss| - 1];
      if rest != [] && rest[|rest| - 1] == s then rest else rest + [s]
  }

  /** The `i`th change names the status before it, if there is one, and differs from it. */
  ghost predicate Linked(es: seq<Event>, i: nat)
    requires i < |es|
  {
    && es[i].StatusChange?
    && (if i == 0 then es[i].previous == None
        else es[i - 1].StatusChange? && es[i].previous == Some(es[i - 1].status) && es[i].status != es[i - 1].status)
  }

  ghost predicate Chained(es: seq<Event>) {
    forall i | 0 <= i < |es| :: Linked(es, i)
  }

  ghost predicate Spells(es: seq<Event>, ss: seq<string>) {
    |es| == |ss| && forall i | 0 <= i < |es| :: es[i].StatusChange? && es[i].status == ss[i]
  }

  ghost predicate Matches(es: seq<Event>, seen: seq<string>, last: Option<string>) {
    && Chained(es)
    && Spells(es, Compress(seen))
    && last == if es == [] || !es[|es| - 1].StatusChange? then None else Some(es[|es| - 1].status)
  }

  ghost predicate StatusesMatch(sh: Shared, n: Id) {
    Matches(Changes(sh.bus.log, n), StatusesSeen(sh.processed, n), LastStatus(sh.published, n))
  }

  lemma {:induction false} ChangesAppend(a: seq<Event>, b: seq<Event>, n: Id)
    ensures Changes(a + b, n) == Changes(a, n) + Changes(b, n)
  {
    if b == [] {
      assert a + b == a;
    } else {
      ChangesAppend(a, b[..|b| - 1], n);
      assert (a + b)[..|a + b| - 1] == a + b[..|b| - 1];
    }
  }

  lemma {:induction false} NoChanges(es: seq<Event>, n: Id)
    requires forall i | 0 <= i < |es| :: !es[i].StatusChange?
    ensures Changes(es, n) == []
  {
    if es != [] { NoChanges(es[..|es| - 1], n); }
  }

  /** A block that publishes no status change and touches no status guard keeps the chain. */
  lemma OtherBlock(sh: Shared, sh1: Shared, es: seq<Event>, n: Id)
    requires StatusesMatch(sh, n)
    requires sh1.processed == sh.processed && sh1.published.statuses == sh.published.statuses && sh1.bus == sh.bus
    requires forall i | 0 <= i < |es| :: !es[i].StatusChange?
    ensures StatusesMatch(Emit(sh1, es), n)
  {
    PublishAllFrame(sh1.bus, es);
    ChangesAppend(sh.bus.log, es, n);
    NoChanges(es, n);
    assert Changes(sh.bus.log, n) + [] == Changes(sh.bus.log, n);
  }

  lemma SeenOneMore(processed: seq<(Id, string)>, m: Id, cur: string, n: Id)
    ensures StatusesSeen(processed + [(m, cur)], n)
         == if m == n then StatusesSeen(processed, n) + [cur] else StatusesSeen(processed, n)
  {
    assert (processed + [(m, cur)])[..|processed|] == processed;
  }

  lemma ChangesOneMore(log: seq<Event>, e: Event, n: Id)
    requires e.StatusChange?
    ensures Changes(log + [e], n) == if e.negotiationId == n then Changes(log, n) + [e] else Changes(log, n)
  {
    assert (log + [e])[..|log|] == log;
  }

  lemma CompressOneMore(ss: seq<string>, s: string)
    ensures Compress(ss + [s])
         == var rest := Compress(ss); if rest != [] && rest[|rest| - 1] == s then rest else rest + [s]
  {
    var all := ss + [s];
    assert all[..|all| - 1] == ss && all[|all| - 1] == s;
  }

  lemma OneMoreStatus(es: seq<Event>, seen: seq<string>, last: Option<string>, n: Id, cur: string)
    requires Matches(es, seen, last)
    ensures last == Some(cur) ==> Matches(es, seen + [cur], last)
    ensures last != Some(cur) ==> Matches(es + [StatusChange(n, cur, last)], seen + [cur], Some(cur))
  {
    CompressOneMore(seen, cur);
    var more := es + [StatusChange(n, cur, last)];
    if es != [] { assert Linked(es, |es| - 1); }
    forall i | 0 <= i < |more| && last != Some(cur) ensures Linked(more, i) {
      if i < |es| { assert Linked(es, i); }
    }
  }

  lemma StatusKeepsChain(sh: Shared, l: Local, n: Id)
    requires StatusesMatch(sh, n)
    ensures StatusesMatch(PublishStatus(sh, l), n)
  {
    var cur := CurrentStatus(l);
    var last := LastStatus(sh.published, l.n);
    if Truthy(cur) {
      SeenOneMore(sh.processed, l.n, cur, n);
      OneMoreStatus(Changes(sh.bus.log, n), StatusesSeen(sh.processed, n), LastStatus(sh.published, n), n, cur);
      if last != Some(cur) {
        var e := StatusChange(l.n, cur, last);
        PublishAllFrame(sh.bus, [e]);
        ChangesOneMore(sh.bus.log, e, n);
      }
    }
  }

  lemma DiffKeepsChain(sh: Shared, l: Local, awards: seq<Award>, orders: seq<Order>, visit: seq<Id>, n: Id)
    requires StatusesMatch(sh, n)
    ensures StatusesMatch(Diff(sh, l, awards, orders, visit), n)
  {
    var s1 := PublishInvitations(sh, l);
    OtherBlock(sh, sh.(published := s1.published), RfqEvents(l.n, FreshInvitations(sh, l)), n);
    var s2 := PublishFeedback(s1, l);
    OtherBlock(s1, s1.(published := s2.published), FeedbackEvents(l.n, FreshFeedback(s1, l)), n);
    var s3 := PublishDerived(s2, l);
    OtherBlock(s2, s2, DerivedEvents(l.n, FreshDerived(l)), n);
    var s4 := Save(s3, BuildSnapshot(l, awards, orders));
    var s5 := PublishClassification(s4, l);
    if DefinesClassification(s4, l) {
      var neg := l.fetched.negotiation.value;
      OtherBlock(s4, s4.(published := s5.published), [ClassificationDefined(l.n, neg.quadrant, neg.strategy)], n);
    }
    var s6 := PublishOffers(s5, l, visit);
    OtherBlock(s5, s5.(published := s6.published), OfferEvents(l.n, FreshOffers(s5, l, visit)), n);
    var s7 := PublishAwards(s6, l, awards);
    OtherBlock(s6, s6.(published := s7.published), AwardEvents(l.n, FreshAwards(s6, l, awards)), n);
  }

  lemma FinishKeepsChain(sh: Shared, l: Local, snap: Snapshot, orders: seq<Order>, n: Id)
    requires StatusesMatch(sh, n)
    ensures StatusesMatch(Finish(sh, l, snap, orders), n)
  {
    var s1 := PublishOrders(sh, l, orders);
    OtherBlock(sh, sh.(published := s1.published), PoEvents(l.n, FreshOrders(sh, l, orders)), n);
    StatusKeepsChain(s1, l, n);
  }

  /** What compression means: no two neighbours are equal, and no status is lost. */
  lemma {:induction false} CompressIsStutterFree(ss: seq<string>)
    ensures forall i | 0 < i < |Compress(ss)| :: Compress(ss)[i] != Compress(ss)[i - 1]
    ensures Elements(Compress(ss)) == Elements(ss)
    ensures ss != [] ==> Compress(ss) != [] && Compress(ss)[|Compress(ss)| - 1] == ss[|ss| - 1]
  {
    hide Elements;
    if ss == [] {
      assert Compress(ss) == ss;
    } else {
      var init, s := ss[..|ss| - 1], ss[|ss| - 1];
      CompressIsStutterFree(init);
      OneMoreElement(init, s);
      OneMoreElement(Compress(init), s);
      LastIsElement(Compress(init));
      assert ss == init + [s];
    }
  }

  lemma OneMoreElement(ss: seq<string>, s: string)
    ensures Elements(ss + [s]) == Elements(ss) + {s}
  {
  }

  lemma LastIsElement(ss: seq<string>)
    ensures ss != [] ==> ss[|ss| - 1] in Elements(ss)
  {
  }
}
