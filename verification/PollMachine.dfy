/**
 * Any number of polls running at once on one event loop, with the tables they
 * read changing underneath them.
 *
 * A poll suspends only while it waits for a table call.  The call itself runs
 * on a thread: it takes effect at its own moment (`Read`, `Scan`, `PutLands`,
 * `DeleteLands`), and the poll resumes at a later one, or gives up waiting
 * while a put or delete is still in flight.
 */
module PollMachine {
  import opened Basics
  import opened OrderRows
  import opened EventBus
  import opened Projection

  datatype Tables = Tables(negotiations: map<Id, Negotiation>, bids: map<Id, seq<Bid>>,
                           invitations: map<Id, seq<Communication>>, feedback: map<Id, seq<Communication>>,
                           awards: map<Id, seq<Award>>, orders: map<Id, Order>)

  /** Where a poll is suspended, with the locals it will need. */
  datatype Pc =
    | Fetching(n: Id, negotiation: Option<Option<Negotiation>>, bids: Option<seq<Bid>>,
               invitations: Option<seq<Communication>>, feedback: Option<seq<Communication>>)
    | AwaitAwards(l: Local, rows: Option<seq<Award>>)
    | AwaitOrders(l: Local, awards: seq<Award>, listing: Option<seq<Order>>)
    | Deleting(l: Local, awards: seq<Award>, genuine: seq<Order>, pending: seq<Order>)
    | AwaitPut(l: Local, snapshot: Snapshot, order: Order)
    | Done(result: Option<Snapshot>)

  /**
   * `minted` (synthetic order id to negotiation) and `realIds` are histories:
   * the order ids ever produced here, and those ever produced elsewhere.
   */
  datatype System = System(sh: Shared, tables: Tables, pollers: map<nat, Pc>,
                           puts: map<Id, Order>, deletes: set<Id>,
                           minted: map<Id, Id>, realIds: set<Id>)

  datatype Step =
    | Start(p: nat, n: Id)
    | Read(p: nat)
    | Scan(p: nat, listed: seq<Order>)
    | FetchDone(p: nat, names: map<Id, string>, visit: seq<Id>, id: Id)
    | FetchFailed(p: nat)
    | AwardsDone(p: nat)
    | AwardsFailed(p: nat)
    | OrdersDone(p: nat, visit: seq<Id>, id: Id)
    | OrdersFailed(p: nat, visit: seq<Id>, id: Id)
    | DeleteDone(p: nat, ok: bool, visit: seq<Id>, id: Id)
    | PutDone(p: nat)
    | PutLands(id: Id)
    | DeleteLands(id: Id)
    | Listen(n: Id, q: nat)
    | Leave(n: Id, q: nat)
    | Environment(tables: Tables)

  const NO_TABLES := Tables(map[], map[], map[], map[], map[], map[])
  const START := System(INITIAL, NO_TABLES, map[], map[], {}, map[], {})

  // ---------------------------------------------------------------- thread-side reads

  /** The four reads of the first await happen one after the other. */
  function ReadNext(t: Tables, pc: Pc): Pc {
    match pc
    case Fetching(n, neg, bids, invs, fb) =>
      if neg.None? then pc.(negotiation := Some(if n in t.negotiations then Some(t.negotiations[n]) else None))
      else if bids.None? then pc.(bids := Some(Lookup(t.bids, n, [])))
      else if invs.None? then pc.(invitations := Some(Lookup(t.invitations, n, [])))
      else if fb.None? then pc.(feedback := Some(Lookup(t.feedback, n, [])))
      else pc
    case AwaitAwards(l, rows) => if rows.None? then pc.(rows := Some(Lookup(t.awards, RequisitionOf(l), []))) else pc
    case _ => pc
  }

  function RequisitionOf(l: Local): Id {
    if l.fetched.negotiation.Some? then l.fetched.negotiation.value.requisitionId else ""
  }

  /** A scan returns every row once, in some order. */
  ghost predicate IsScan(rows: seq<Order>, orders: map<Id, Order>) {
    && (forall i, j | 0 <= i < j < |rows| :: rows[i].orderId != rows[j].orderId)
    && (forall r | r in rows :: r.orderId in orders && orders[r.orderId] == r)
    && (forall id | id in orders :: orders[id] in rows)
  }

  // ---------------------------------------------------------------- resuming

  predicate FetchReady(pc: Pc) {
    pc.Fetching? && pc.negotiation.Some? && pc.bids.Some? && pc.invitations.Some? && pc.feedback.Some?
  }

  /** `prev` is read once, when the first await returns. */
  function LocalOf(sh: Shared, pc: Pc, names: map<Id, string>): Local
    requires FetchReady(pc)
  {
    Local(pc.n,
          Fetched(pc.negotiation.value, pc.bids.value, pc.invitations.value, pc.feedback.value, names),
          Lookup(sh.state, pc.n, NO_SNAPSHOT))
  }

  /** The diff is made: either finish, or claim a synthetic order and await its put. */
  function AfterDiff(s: System, sh1: Shared, p: nat, l: Local, awards: seq<Award>, orders: seq<Order>, id: Id): (s': System)
    ensures p in s'.pollers
  {
    var snap := BuildSnapshot(l, awards, orders);
    if WantsSyntheticOrder(sh1, l, awards, orders) then
      var order := SyntheticOrder(id, l, awards);
      s.(sh := Mint(sh1, l.n, id), pollers := s.pollers[p := AwaitPut(l, snap, order)],
         puts := s.puts[id := order], minted := s.minted[id := l.n])
    else
      s.(sh := Finish(sh1, l, snap, orders), pollers := s.pollers[p := Done(Some(snap))])
  }

  /** Awards and orders are known. */
  function Proceed(s: System, p: nat, l: Local, awards: seq<Award>, orders: seq<Order>,
                   visit: seq<Id>, id: Id): (s': System)
    ensures p in s'.pollers
  {
    AfterDiff(s, Diff(s.sh, l, awards, orders, visit), p, l, awards, orders, id)
  }

  /** The next delete is issued, or there is none left and the poll proceeds with the real orders. */
  function NextDelete(s: System, p: nat, l: Local, awards: seq<Award>, genuine: seq<Order>, pending: seq<Order>,
                      visit: seq<Id>, id: Id): (s': System)
    ensures p in s'.pollers
  {
    if pending == [] then Proceed(s, p, l, awards, genuine, visit, id)
    else s.(pollers := s.pollers[p := Deleting(l, awards, genuine, pending)],
            deletes := s.deletes + {pending[0].orderId})
  }

  function WithOrders(s: System, p: nat, l: Local, awards: seq<Award>, listing: seq<Order>,
                      visit: seq<Id>, id: Id): (s': System)
    ensures p in s'.pollers
  {
    var mine := OfRequisition(listing, RequisitionOf(l));
    var genuine, synthetic := RealOrders(s.sh, mine), SyntheticOrders(s.sh, mine);
    if genuine != [] && synthetic != [] then NextDelete(s, p, l, awards, genuine, synthetic, visit, id)
    else Proceed(s, p, l, awards, mine, visit, id)
  }

  function AfterFetch(s: System, p: nat, pc: Pc, names: map<Id, string>, visit: seq<Id>, id: Id): System
    requires FetchReady(pc)
  {
    var l := LocalOf(s.sh, pc, names);
    if pc.negotiation.value.None? && pc.n !in s.sh.state then s.(pollers := s.pollers[p := Done(None)])
    else if Truthy(RequisitionOf(l)) then s.(pollers := s.pollers[p := AwaitAwards(l, None)])
    else Proceed(s, p, l, [], [], visit, id)
  }

  // ---------------------------------------------------------------- steps

  /** A new order id is one no order anywhere has had. */
  ghost predicate FreshId(s: System, id: Id) {
    Truthy(id) && id !in s.minted && id !in s.realIds
  }

  ghost predicate CanChoose(s: System, l: Local, visit: seq<Id>, id: Id) {
    FreshId(s, id) && Enumerates(visit, NewOffers(l))
  }

  ghost predicate Enabled(s: System, step: Step) {
    match step
    case Start(p, n) => p !in s.pollers
    case Read(p) => p in s.pollers
    case Scan(p, rows) => p in s.pollers && s.pollers[p].AwaitOrders? && s.pollers[p].listing.None? && IsScan(rows, s.tables.orders)
    case FetchDone(p, names, visit, id) =>
      p in s.pollers && FetchReady(s.pollers[p]) && CanChoose(s, LocalOf(s.sh, s.pollers[p], names), visit, id)
    case FetchFailed(p) => p in s.pollers && s.pollers[p].Fetching?
    case AwardsDone(p) => p in s.pollers && s.pollers[p].AwaitAwards? && s.pollers[p].rows.Some?
    case AwardsFailed(p) => p in s.pollers && s.pollers[p].AwaitAwards?
    case OrdersDone(p, visit, id) =>
      p in s.pollers && s.pollers[p].AwaitOrders? && s.pollers[p].listing.Some? && CanChoose(s, s.pollers[p].l, visit, id)
    case OrdersFailed(p, visit, id) =>
      p in s.pollers && s.pollers[p].AwaitOrders? && CanChoose(s, s.pollers[p].l, visit, id)
    case DeleteDone(p, ok, visit, id) =>
      && p in s.pollers && s.pollers[p].Deleting? && s.pollers[p].pending != []
      && (ok ==> s.pollers[p].pending[0].orderId !in s.tables.orders)
      && CanChoose(s, s.pollers[p].l, visit, id)
    case PutDone(p) => p in s.pollers && s.pollers[p].AwaitPut?
    case PutLands(id) => id in s.puts
    case DeleteLands(id) => id in s.deletes
    case Listen(n, q) => q !in s.sh.bus.queues
    case Leave(n, q) => true
    case Environment(t) =>
      && (forall id | id in t.orders :: t.orders[id].orderId == id)
      && (forall id | id in s.minted && id in t.orders :: id in s.tables.orders)
  }

  function Discard(sh: Shared, id: Id): Shared {
    sh.(syntheticOrders := sh.syntheticOrders - {id})
  }

  function Apply(s: System, step: Step): System
    requires Enabled(s, step)
  {
    match step
    case Start(p, n) => s.(pollers := s.pollers[p := Fetching(n, None, None, None, None)])
    case Read(p) => s.(pollers := s.pollers[p := ReadNext(s.tables, s.pollers[p])])
    case Scan(p, rows) => s.(pollers := s.pollers[p := s.pollers[p].(listing := Some(rows))])
    case FetchDone(p, names, visit, id) => AfterFetch(s, p, s.pollers[p], names, visit, id)
    case FetchFailed(p) => s.(pollers := s.pollers[p := Done(None)])
    case AwardsDone(p) =>
      s.(pollers := s.pollers[p := AwaitOrders(s.pollers[p].l, s.pollers[p].rows.value, None)])
    case AwardsFailed(p) => s.(pollers := s.pollers[p := AwaitOrders(s.pollers[p].l, [], None)])
    case OrdersDone(p, visit, id) =>
      WithOrders(s, p, s.pollers[p].l, s.pollers[p].awards, s.pollers[p].listing.value, visit, id)
    case OrdersFailed(p, visit, id) => WithOrders(s, p, s.pollers[p].l, s.pollers[p].awards, [], visit, id)
    case DeleteDone(p, ok, visit, id) =>
      var pc := s.pollers[p];
      var s1 := if ok then s.(sh := Discard(s.sh, pc.pending[0].orderId)) else s;
      NextDelete(s1, p, pc.l, pc.awards, pc.genuine, pc.pending[1..], visit, id)
    case PutDone(p) =>
      var pc := s.pollers[p];
      s.(sh := Finish(s.sh, pc.l, pc.snapshot, []), pollers := s.pollers[p := Done(Some(pc.snapshot))])
    case PutLands(id) =>
      s.(tables := s.tables.(orders := s.tables.orders[id := s.puts[id]]), puts := s.puts - {id})
    case DeleteLands(id) => s.(tables := s.tables.(orders := s.tables.orders - {id}))
    case Listen(n, q) => s.(sh := s.sh.(bus := Subscribe(s.sh.bus, n, q)))
    case Leave(n, q) => s.(sh := s.sh.(bus := Unsubscribe(s.sh.bus, n, q)))
    case Environment(t) => s.(tables := t, realIds := s.realIds + (t.orders.Keys - s.minted.Keys))
  }

  /**
   * A poll may be left waiting no longer at any time: every read may fail,
   * every delete may fail, and a put may be over whether or not it has landed.
   */
  lemma EveryWaitMayEnd(s: System, p: nat, visit: seq<Id>, id: Id)
    requires p in s.pollers
    ensures var pc := s.pollers[p];
      && (pc.Fetching? ==> Enabled(s, FetchFailed(p)))
      && (pc.AwaitAwards? ==> Enabled(s, AwardsFailed(p)))
      && (pc.AwaitOrders? && CanChoose(s, pc.l, visit, id) ==> Enabled(s, OrdersFailed(p, visit, id)))
      && (pc.Deleting? && pc.pending != [] && CanChoose(s, pc.l, visit, id) ==> Enabled(s, DeleteDone(p, false, visit, id)))
      && (pc.AwaitPut? ==> Enabled(s, PutDone(p)))
    ensures forall put | put in s.puts :: Enabled(s, PutLands(put))
    ensures forall gone | gone in s.deletes :: Enabled(s, DeleteLands(gone))
  {
  }

  /** Others may change the tables at any time in any way, short of adding a row under a minted id. */
  lemma TablesMayChange(s: System, t: Tables)
    requires (forall id | id in t.orders :: t.orders[id].orderId == id) && forall id | id in s.minted :: id !in t.orders
    ensures Enabled(s, Environment(t)) && Apply(s, Environment(t)).tables == t
  {
  }

  // ---------------------------------------------------------------- runs

  /** The steps can be taken one after the other from `s`. */
  ghost predicate Legal(s: System, steps: seq<Step>)
    decreases |steps|, 0
  {
    steps == [] ||
    (Legal(s, steps[..|steps| - 1]) && Enabled(Exec(s, steps[..|steps| - 1]), steps[|steps| - 1]))
  }

  ghost function Exec(s: System, steps: seq<Step>): System
    requires Legal(s, steps)
    decreases |steps|, 1
  {
    if steps == [] then s else Apply(Exec(s, steps[..|steps| - 1]), steps[|steps| - 1])
  }

  ghost predicate Reachable(s: System) {
    exists steps :: Legal(START, steps) && Exec(START, steps) == s
  }

  ghost predicate Next(s: System, step: Step, s': System) {
    Enabled(s, step) && s' == Apply(s, step)
  }

  lemma {:induction false} ExecAppend(s: System, a: seq<Step>, b: seq<Step>)
    requires Legal(s, a + b)
    ensures Legal(s, a) && Legal(Exec(s, a), b)
    ensures Exec(s, a + b) == Exec(Exec(s, a), b)
  {
    if b == [] {
      assert a + b == a;
    } else {
      assert (a + b)[..|a + b| - 1] == a + b[..|b| - 1];
      ExecAppend(s, a, b[..|b| - 1]);
    }
  }

  lemma ExecOne(s: System, steps: seq<Step>, step: Step)
    requires Legal(s, steps) && Enabled(Exec(s, steps), step)
    ensures Legal(s, steps + [step]) && Exec(s, steps + [step]) == Apply(Exec(s, steps), step)
  {
    assert (steps + [step])[..|steps|] == steps;
  }

  // ---------------------------------------------------------------- frames

  /** A resuming poll moves itself only, and no table changes at that moment. */
  ghost predicate MovesOnly(s: System, s': System, p: nat) {
    && s'.tables == s.tables && s'.realIds == s.realIds
    && s'.pollers.Keys == s.pollers.Keys + {p}
    && forall q | q in s.pollers && q != p :: s'.pollers[q] == s.pollers[q]
  }

  lemma AfterDiffMoves(s: System, sh1: Shared, p: nat, l: Local, awards: seq<Award>, orders: seq<Order>, id: Id)
    ensures MovesOnly(s, AfterDiff(s, sh1, p, l, awards, orders, id), p)
    ensures var pc := AfterDiff(s, sh1, p, l, awards, orders, id).pollers[p]; pc.AwaitPut? || pc.Done?
  {
    hide Diff, Finish;
  }

  lemma ProceedMoves(s: System, p: nat, l: Local, awards: seq<Award>, orders: seq<Order>, visit: seq<Id>, id: Id)
    ensures MovesOnly(s, Proceed(s, p, l, awards, orders, visit, id), p)
    ensures var pc := Proceed(s, p, l, awards, orders, visit, id).pollers[p]; pc.AwaitPut? || pc.Done?
  {
    hide Diff, Finish;
    AfterDiffMoves(s, Diff(s.sh, l, awards, orders, visit), p, l, awards, orders, id);
  }

  lemma NextDeleteMoves(s: System, p: nat, l: Local, awards: seq<Award>, genuine: seq<Order>, pending: seq<Order>,
                        visit: seq<Id>, id: Id)
    ensures MovesOnly(s, NextDelete(s, p, l, awards, genuine, pending, visit, id), p)
  {
    hide Proceed;
    ProceedMoves(s, p, l, awards, genuine, visit, id);
  }

  lemma WithOrdersMoves(s: System, p: nat, l: Local, awards: seq<Award>, listing: seq<Order>, visit: seq<Id>, id: Id)
    ensures MovesOnly(s, WithOrders(s, p, l, awards, listing, visit, id), p)
  {
    hide Proceed;
    var mine := OfRequisition(listing, RequisitionOf(l));
    NextDeleteMoves(s, p, l, awards, RealOrders(s.sh, mine), SyntheticOrders(s.sh, mine), visit, id);
    ProceedMoves(s, p, l, awards, mine, visit, id);
  }

  predicate NamesPoll(step: Step) {
    !(step.Listen? || step.Leave? || step.PutLands? || step.DeleteLands? || step.Environment?)
  }

  predicate Publishes(step: Step) {
    step.FetchDone? || step.OrdersDone? || step.OrdersFailed? || step.DeleteDone? || step.PutDone?
  }

  lemma DeleteDoneMoves(s: System, step: Step)
    requires Enabled(s, step) && step.DeleteDone?
    ensures MovesOnly(s, Apply(s, step), step.p)
  {
    hide Proceed;
    var pc := s.pollers[step.p];
    var s1 := if step.ok then s.(sh := Discard(s.sh, pc.pending[0].orderId)) else s;
    NextDeleteMoves(s1, step.p, pc.l, pc.awards, pc.genuine, pc.pending[1..], step.visit, step.id);
  }

  lemma ResumeMoves(s: System, step: Step)
    requires Enabled(s, step) && (step.FetchDone? || step.OrdersDone? || step.OrdersFailed?)
    ensures MovesOnly(s, Apply(s, step), step.p)
  {
    hide Proceed;
    match step
    case FetchDone(p, names, visit, id) =>
      ProceedMoves(s, p, LocalOf(s.sh, s.pollers[p], names), [], [], visit, id);
    case OrdersDone(p, visit, id) =>
      WithOrdersMoves(s, p, s.pollers[p].l, s.pollers[p].awards, s.pollers[p].listing.value, visit, id);
    case OrdersFailed(p, visit, id) =>
      WithOrdersMoves(s, p, s.pollers[p].l, s.pollers[p].awards, [], visit, id);
  }

  lemma StepMoves(s: System, step: Step)
    requires Enabled(s, step) && NamesPoll(step)
    ensures MovesOnly(s, Apply(s, step), step.p)
  {
    hide Proceed;
    if step.FetchDone? || step.OrdersDone? || step.OrdersFailed? {
      ResumeMoves(s, step);
    } else if step.DeleteDone? {
      DeleteDoneMoves(s, step);
    }
  }
}
