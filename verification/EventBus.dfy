/**
 * Publication of server-sent events: the subscriber lists, the queues they
 * name, and one shared log of everything ever published.  The log is a history
 * variable; the code keeps only the queues.
 */
module EventBus {
  import opened Basics
  import opened OrderRows

  datatype Communication = Communication(communicationId: Id, supplierId: Id, supplierName: string)

  datatype Bid = Bid(bidId: Id, supplierId: Id, supplierName: string,
                     amount: real, totalAmount: real, rank: Option<int>)

  /**
   * What is published.  `derived` is a history mark: it tells an invitation
   * derived from bids from a stored one; the code's events do not carry it.
   */
  datatype Event =
    | RfqSent(negotiationId: Id, communication: Communication, derived: bool)
    | AuctionRoundFeedback(negotiationId: Id, communication: Communication)
    | ClassificationDefined(negotiationId: Id, quadrant: string, strategy: string)
    | OfferReceived(negotiationId: Id, bid: Bid)
    | AwardIssued(negotiationId: Id, award: Award)
    | PoIssued(negotiationId: Id, order: Order)
    | StatusChange(negotiationId: Id, status: string, previous: Option<string>)

  /** Queues are named by numbers; `queues` holds everything ever put on each. */
  datatype Bus = Bus(subscribers: map<Id, seq<nat>>, globals: seq<nat>,
                     queues: map<nat, seq<Event>>, log: seq<Event>)

  const EMPTY_BUS := Bus(map[], [], map[], [])

  function Targets(b: Bus, n: Id): seq<nat> {
    Lookup(b.subscribers, n, []) + b.globals
  }

  function PutAll(queues: map<nat, seq<Event>>, targets: seq<nat>, e: Event): map<nat, seq<Event>> {
    if targets == [] then queues else
      var q := targets[|targets| - 1];
      var done := PutAll(queues, targets[..|targets| - 1], e);
      done[q := Lookup(done, q, []) + [e]]
  }

  function Publish(b: Bus, e: Event): Bus {
    b.(queues := PutAll(b.queues, Targets(b, e.negotiationId), e), log := b.log + [e])
  }

  function PublishAll(b: Bus, es: seq<Event>): Bus {
    if es == [] then b else Publish(PublishAll(b, es[..|es| - 1]), es[|es| - 1])
  }

  /** The empty negotiation id registers a listener for every negotiation. */
  function Subscribe(b: Bus, n: Id, q: nat): Bus {
    var b1 := b.(queues := b.queues[q := []]);
    if Truthy(n) then b1.(subscribers := b.subscribers[n := Lookup(b.subscribers, n, []) + [q]])
    else b1.(globals := b.globals + [q])
  }

  function Without(qs: seq<nat>, q: nat): seq<nat> {
    if qs == [] then [] else
      var rest := Without(qs[..|qs| - 1], q);
      if qs[|qs| - 1] == q then rest else rest + [qs[|qs| - 1]]
  }

  function Unsubscribe(b: Bus, n: Id, q: nat): Bus {
    if Truthy(n) && n in b.subscribers then
      b.(subscribers := b.subscribers[n := Without(b.subscribers[n], q)])
    else
      b.(globals := Without(b.globals, q))
  }

  // ---------------------------------------------------------------- scope of a queue

  /** `q` listens to `scope`: a negotiation id, or "" for every negotiation. */
  ghost predicate Listens(b: Bus, scope: Id, q: nat) {
    if Truthy(scope) then q in Lookup(b.subscribers, scope, []) else q in b.globals
  }

  /** Every queue is registered at most once, under a negotiation or globally. */
  ghost predicate BusValid(b: Bus) {
    && "" !in b.subscribers
    && (forall n | n in b.subscribers :: NoDuplicates(b.subscribers[n]))
    && NoDuplicates(b.globals)
    && (forall m, n, q | Listens(b, m, q) && Listens(b, n, q) :: m == n)
    && (forall n, q | Listens(b, n, q) :: q in b.queues)
  }

  /** The events of a log that a listener on `scope` is owed. */
  ghost function For(es: seq<Event>, scope: Id): seq<Event> {
    if es == [] then [] else
      var rest := For(es[..|es| - 1], scope);
      var e := es[|es| - 1];
      if scope == "" || e.negotiationId == scope then rest + [e] else rest
  }

  lemma {:induction false} ForAppend(a: seq<Event>, b: seq<Event>, scope: Id)
    ensures For(a + b, scope) == For(a, scope) + For(b, scope)
  {
    if b == [] {
      assert a + b == a;
    } else {
      ForAppend(a, b[..|b| - 1], scope);
      assert (a + b)[..|a + b| - 1] == a + b[..|b| - 1];
    }
  }

  lemma {:induction false} ForMember(es: seq<Event>, scope: Id, i: nat)
    requires i < |es| && es[i].negotiationId == scope
    ensures es[i] in For(es, scope)
  {
    if i < |es| - 1 {
      ForMember(es[..|es| - 1], scope, i);
    }
  }

  // ---------------------------------------------------------------- what one publication does

  lemma {:induction false} PutAllEffect(queues: map<nat, seq<Event>>, targets: seq<nat>, e: Event, q: nat)
    requires NoDuplicates(targets)
    ensures q !in targets ==> Lookup(PutAll(queues, targets, e), q, []) == Lookup(queues, q, [])
    ensures q in targets ==> Lookup(PutAll(queues, targets, e), q, []) == Lookup(queues, q, []) + [e]
    ensures PutAll(queues, targets, e).Keys == queues.Keys + Elements(targets)
  {
    if targets != [] {
      var rest := targets[..|targets| - 1];
      assert targets == rest + [targets[|targets| - 1]];
      PutAllEffect(queues, rest, e, q);
    }
  }

  lemma TargetsDistinct(b: Bus, n: Id)
    requires BusValid(b)
    ensures NoDuplicates(Targets(b, n))
  {
    var mine := Lookup(b.subscribers, n, []);
    forall i, j | 0 <= i < j < |Targets(b, n)|
      ensures Targets(b, n)[i] != Targets(b, n)[j]
    {
      if i < |mine| <= j {
        assert Listens(b, n, mine[i]);
        assert Listens(b, "", b.globals[j - |mine|]);
      }
    }
  }

  lemma PublishKeepsValid(b: Bus, e: Event)
    requires BusValid(b)
    ensures BusValid(Publish(b, e))
    ensures Publish(b, e).subscribers == b.subscribers && Publish(b, e).globals == b.globals
  {
    var b' := Publish(b, e);
    TargetsDistinct(b, e.negotiationId);
    forall n, q | Listens(b', n, q) ensures q in b'.queues {
      assert Listens(b, n, q);
      PutAllEffect(b.queues, Targets(b, e.negotiationId), e, q);
    }
    forall m, n, q | Listens(b', m, q) && Listens(b', n, q) ensures m == n {
      assert Listens(b, m, q) && Listens(b, n, q);
    }
  }

  lemma PublishView(b: Bus, e: Event, scope: Id, q: nat)
    requires BusValid(b) && Listens(b, scope, q)
    ensures Lookup(Publish(b, e).queues, q, []) == b.queues[q] + For([e], scope)
  {
    TargetsDistinct(b, e.negotiationId);
    PutAllEffect(b.queues, Targets(b, e.negotiationId), e, q);
    assert q in Targets(b, e.negotiationId) ==>
        Listens(b, e.negotiationId, q) || Listens(b, "", q);
  }

  /** A registered queue receives exactly the events of its scope, once each, in order. */
  lemma {:induction false} PublishAllView(b: Bus, es: seq<Event>, scope: Id, q: nat)
    requires BusValid(b) && Listens(b, scope, q)
    ensures BusValid(PublishAll(b, es)) && Listens(PublishAll(b, es), scope, q)
    ensures PublishAll(b, es).queues[q] == b.queues[q] + For(es, scope)
  {
    PublishAllFrame(b, es);
    if es != [] {
      var init, e := es[..|es| - 1], es[|es| - 1];
      PublishAllView(b, init, scope, q);
      PublishView(PublishAll(b, init), e, scope, q);
      ForAppend(init, [e], scope);
      assert Listens(PublishAll(b, es), scope, q);
      assert b.queues[q] + For(init, scope) + For([e], scope) == b.queues[q] + (For(init, scope) + For([e], scope));
    }
  }

  /** A queue that listens to nothing. */
  ghost predicate Silent(b: Bus, q: nat) {
    q in b.queues && forall scope :: !Listens(b, scope, q)
  }

  /** A queue that listens to nothing receives nothing, and a publication registers no one. */
  lemma {:induction false} PublishAllSilent(b: Bus, es: seq<Event>, q: nat)
    requires BusValid(b) && Silent(b, q)
    ensures Silent(PublishAll(b, es), q) && PublishAll(b, es).queues[q] == b.queues[q]
  {
    if es != [] {
      var init, e := es[..|es| - 1], es[|es| - 1];
      var b1 := PublishAll(b, init);
      PublishAllSilent(b, init, q);
      PublishAllFrame(b, init);
      PublishAllFrame(b, es);
      TargetsDistinct(b1, e.negotiationId);
      PutAllEffect(b1.queues, Targets(b1, e.negotiationId), e, q);
      assert !Listens(b1, e.negotiationId, q) && !Listens(b1, "", q);
      forall scope ensures !Listens(PublishAll(b, es), scope, q) { assert !Listens(b, scope, q); }
    }
  }

  lemma {:induction false} PublishAllFrame(b: Bus, es: seq<Event>)
    ensures PublishAll(b, es).log == b.log + es
    ensures PublishAll(b, es).subscribers == b.subscribers && PublishAll(b, es).globals == b.globals
    ensures BusValid(b) ==> BusValid(PublishAll(b, es))
  {
    if es != [] {
      PublishAllFrame(b, es[..|es| - 1]);
      assert es == es[..|es| - 1] + [es[|es| - 1]];
      if BusValid(b) {
        PublishKeepsValid(PublishAll(b, es[..|es| - 1]), es[|es| - 1]);
      }
    }
  }

  // ---------------------------------------------------------------- subscribing

  lemma SubscribeKeepsValid(b: Bus, n: Id, q: nat)
    requires BusValid(b) && q !in b.queues
    ensures BusValid(Subscribe(b, n, q)) && Listens(Subscribe(b, n, q), n, q)
    ensures Subscribe(b, n, q).queues[q] == [] && Subscribe(b, n, q).log == b.log
    ensures forall m, r | Listens(Subscribe(b, n, q), m, r) && r != q ::
              Listens(b, m, r) && Subscribe(b, n, q).queues[r] == b.queues[r]
    ensures forall m, r | Listens(b, m, r) :: Listens(Subscribe(b, n, q), m, r) && r != q
  {
    var b' := Subscribe(b, n, q);
    assert forall m | !Listens(b, m, q) :: q !in Lookup(b.subscribers, m, []);
    assert !Listens(b, n, q) && !Listens(b, "", q);
    assert forall m, r | Listens(b', m, r) && r != q :: Listens(b, m, r);
    forall m | Listens(b', m, q) ensures m == n {
      assert !Listens(b, m, q);
    }
  }

  lemma {:induction false} WithoutMembers(qs: seq<nat>, q: nat)
    ensures q !in Without(qs, q)
    ensures forall r | r != q :: r in Without(qs, q) <==> r in qs
    ensures NoDuplicates(qs) ==> NoDuplicates(Without(qs, q))
  {
    if qs != [] {
      var rest := qs[..|qs| - 1];
      assert qs == rest + [qs[|qs| - 1]];
      WithoutMembers(rest, q);
      if NoDuplicates(qs) {
        assert forall i | 0 <= i < |rest| :: rest[i] == qs[i];
        assert qs[|qs| - 1] !in rest;
      }
    }
  }

  /** Unsubscribing removes that one registration and touches no other listener. */
  lemma UnsubscribeFrame(b: Bus, n: Id, q: nat)
    requires BusValid(b)
    ensures BusValid(Unsubscribe(b, n, q))
    ensures Unsubscribe(b, n, q).queues == b.queues && Unsubscribe(b, n, q).log == b.log
    ensures Listens(b, n, q) ==> forall m :: !Listens(Unsubscribe(b, n, q), m, q)
    ensures forall m, r | r != q :: Listens(Unsubscribe(b, n, q), m, r) <==> Listens(b, m, r)
    ensures forall m | Listens(Unsubscribe(b, n, q), m, q) :: Listens(b, m, q)
  {
    var b' := Unsubscribe(b, n, q);
    if Truthy(n) && n in b.subscribers {
      WithoutMembers(b.subscribers[n], q);
    } else {
      WithoutMembers(b.globals, q);
    }
    assert forall m, r | Listens(b', m, r) :: Listens(b, m, r);
  }

  // ---------------------------------------------------------------- the view, across any interval

  /** Between two moments, `q` received exactly the part of the log it is owed. */
  ghost predicate Follows(b: Bus, b': Bus, scope: Id, q: nat) {
    && q in b.queues && q in b'.queues
    && b.log <= b'.log
    && b'.queues[q] == b.queues[q] + For(b'.log[|b.log|..], scope)
  }

  lemma SplitSuffix(a: seq<Event>, b: seq<Event>, c: seq<Event>)
    requires a <= b && b <= c
    ensures a <= c && c[|a|..] == b[|a|..] + c[|b|..]
  {
    assert c == b + c[|b|..];
  }

  lemma FollowsTrans(a: Bus, b: Bus, c: Bus, scope: Id, q: nat)
    requires Follows(a, b, scope, q) && Follows(b, c, scope, q)
    ensures Follows(a, c, scope, q)
  {
    SplitSuffix(a.log, b.log, c.log);
    var early, late := b.log[|a.log|..], c.log[|b.log|..];
    ForAppend(early, late, scope);
    assert c.queues[q] == a.queues[q] + For(early, scope) + For(late, scope);
    assert a.queues[q] + For(early, scope) + For(late, scope) == a.queues[q] + (For(early, scope) + For(late, scope));
  }

  lemma PublishAllFollows(b: Bus, es: seq<Event>, scope: Id, q: nat)
    requires BusValid(b) && Listens(b, scope, q)
    ensures Follows(b, PublishAll(b, es), scope, q)
  {
    PublishAllView(b, es, scope, q);
    PublishAllFrame(b, es);
    assert (b.log + es)[|b.log|..] == es;
  }
}
