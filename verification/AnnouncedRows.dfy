/**
 * Events and snapshots against each other, in terms of the rows' own fields:
 * every row with an id that a poll has returned has exactly one event, and
 * every event is about a row that some poll shows.
 */
module AnnouncedRows {
  import opened Basics
  import opened OrderRows
  import opened EventBus
  import opened Projection
  import opened EventGuards
  import opened PollMachine
  import opened PollSafety
  import opened PollStreams
  import opened PollEffects
  import opened SnapshotRows
  import PollRuns

  // ---------------------------------------------------------------- exactly one event

  ghost predicate Once(log: seq<Event>, about: Event -> bool) {
    exists i | 0 <= i < |log| && about(log[i]) :: forall j | 0 <= j < |log| && about(log[j]) :: j == i
  }

  lemma KeyOnce(log: seq<Event>, k: EventKey, about: Event -> bool)
    requires AtMostOnce(log) && Logged(log, k)
    requires forall e :: about(e) <==> KeyOf(e) == Some(k)
    ensures Once(log, about)
  {
    var i :| 0 <= i < |log| && KeyOf(log[i]) == Some(k);
    assert about(log[i]);
    forall j | 0 <= j < |log| && about(log[j]) ensures j == i {
      assert KeyOf(log[j]) == KeyOf(log[i]);
    }
  }

  /** The snapshot a poll has returned, or will once its put is done. */
  ghost function SnapOf(pc: Pc): Option<Snapshot> {
    match pc
    case AwaitPut(_, snap, _) => Some(snap)
    case Done(result) => result
    case _ => None
  }

  ghost predicate Whole(pc: Pc) {
    && (SnapOf(pc).Some? ==> ListsIds(SnapOf(pc).value))
    && (pc.AwaitPut? ==> pc.snapshot.status == CurrentStatus(pc.l) && pc.snapshot.negotiationId == pc.l.n)
  }

  lemma BuiltWhole(l: Local, awards: seq<Award>, orders: seq<Order>)
    ensures var snap := BuildSnapshot(l, awards, orders);
      ListsIds(snap) && snap.status == CurrentStatus(l) && snap.negotiationId == l.n
  {
    BuiltShowsRows(l, awards, orders);
  }

  lemma ResumerWhole(s: System, step: Step)
    requires Enabled(s, step) && Resumes(step) && step.p in Apply(s, step).pollers
    ensures Whole(Apply(s, step).pollers[step.p])
  {
    hide Enabled, Apply, Proceed, Diffs, BuildSnapshot, DiffEvents, PublisherLocal, PublisherAwards, OrdersInHand, ListsIds;
    var l, awards, orders := PublisherLocal(s, step), PublisherAwards(s, step), OrdersInHand(s, step);
    BuiltWhole(l, awards, orders);
    if Diffs(s, step) {
      ResumeDiffs(s, step);
      ProceedEffects(s.(sh := Noted(s, step)), step.p, l, awards, orders, step.visit, step.id);
    } else {
      ResumeWaits(s, step);
    }
  }

  lemma OtherMoverWhole(s: System, step: Step)
    requires Enabled(s, step) && NamesPoll(step) && !Resumes(step) && step.p in Apply(s, step).pollers
    requires step.p in s.pollers ==> Whole(s.pollers[step.p])
    ensures Whole(Apply(s, step).pollers[step.p])
    ensures step.p in s.pollers && SnapOf(s.pollers[step.p]).Some? ==> SnapOf(Apply(s, step).pollers[step.p]) == SnapOf(s.pollers[step.p])
  {
    hide CanChoose, AfterFetch, WithOrders, NextDelete, Finish, ListsIds;
  }

  // ---------------------------------------------------------------- what an event says of a snapshot

  ghost predicate PricedRow(b: Bid) {
    b.amount != 0.0 || b.totalAmount != 0.0
  }

  /** The snapshot shows the row the event is about. */
  ghost predicate ShowsEvent(snap: Snapshot, e: Event) {
    && snap.negotiationId == e.negotiationId
    && match e
       case RfqSent(_, c, _) => c in snap.invitations && c.communicationId != ""
       case AuctionRoundFeedback(_, c) => c in snap.feedback && c.communicationId != ""
       case ClassificationDefined(_, quadrant, strategy) =>
         snap.quadrant == quadrant && snap.strategy == strategy && (quadrant != "" || strategy != "")
       case OfferReceived(_, b) =>
         && (exists r | r in snap.bids :: r.bidId == b.bidId && (r.amount != 0.0 || r.totalAmount != 0.0))
         && FirstOfId(snap.bids, b)
       case AwardIssued(_, a) => a in snap.awards && a.awardId != ""
       case PoIssued(_, o) => o in snap.orders && o.orderId != ""
       case StatusChange(_, status, _) => snap.status == status && status != ""
  }

  /** The first of the bids with its id. */
  ghost predicate FirstOfId(bids: seq<Bid>, b: Bid) {
    exists i | 0 <= i < |bids| :: bids[i] == b && forall j | 0 <= j < i :: bids[j].bidId != b.bidId
  }

  lemma {:induction false} FirstBidIsFirst(bids: seq<Bid>, id: Id)
    ensures FirstBid(bids, id).Some? ==> FirstBid(bids, id).value.bidId == id && FirstOfId(bids, FirstBid(bids, id).value)
  {
    if bids != [] {
      if bids[0].bidId == id {
        assert bids[0] == FirstBid(bids, id).value;
      } else if FirstBid(bids, id).Some? {
        FirstBidIsFirst(bids[1..], id);
        var b := FirstBid(bids, id).value;
        var i :| 0 <= i < |bids[1..]| && bids[1..][i] == b && forall j | 0 <= j < i :: bids[1..][j].bidId != b.bidId;
        assert bids[i + 1] == b;
        forall j | 0 <= j < i + 1 ensures bids[j].bidId != b.bidId {
          if j > 0 { assert bids[j] == bids[1..][j - 1]; }
        }
      }
    }
  }

  lemma {:induction false} VisitedAreFirst(visit: seq<Id>, bids: seq<Bid>)
    ensures forall b | b in BidsInOrder(visit, bids) :: FirstOfId(bids, b)
  {
    if visit != [] {
      VisitedAreFirst(visit[..|visit| - 1], bids);
      FirstBidIsFirst(bids, visit[|visit| - 1]);
    }
  }

  /** Ids with a new price are those of some row with a price. */
  lemma NewOffersHavePrices(l: Local)
    ensures forall id | id in NewOffers(l) :: exists r | r in Named(l) :: r.bidId == id && PricedRow(r)
  {
    forall id | id in NewOffers(l) ensures exists r | r in Named(l) :: r.bidId == id && PricedRow(r) {
      var bids := Named(l);
      var fp :| fp in Fingerprints(bids) && fp.0 == id;
      var i :| 0 <= i < |bids| && Priced(bids[i]) && (bids[i].bidId, Price(bids[i]), bids[i].rank) == fp;
      assert bids[i] in bids;
    }
  }

  lemma FreshMembers<T>(rows: seq<T>, key: T -> Id, wanted: set<Id>, published: set<Id>)
    ensures forall r | r in Fresh(rows, key, wanted, published) :: r in rows && key(r) in wanted
  {
    FreshExact(rows, key, wanted, published);
    var out := Fresh(rows, key, wanted, published);
    forall r | r in out ensures key(r) in wanted {
      var i :| 0 <= i < |out| && out[i] == r;
      assert key(out[i]) in KeySet(out, key);
    }
  }

  lemma RowEventsShown(sh: Shared, l: Local, awards: seq<Award>, orders: seq<Order>)
    ensures var snap := BuildSnapshot(l, awards, orders);
      && (forall e | e in RfqEvents(l.n, FreshInvitations(sh, l)) :: ShowsEvent(snap, e))
      && (forall e | e in FeedbackEvents(l.n, FreshFeedback(sh, l)) :: ShowsEvent(snap, e))
      && (forall e | e in AwardEvents(l.n, FreshAwards(sh, l, awards)) :: ShowsEvent(snap, e))
      && (forall e | e in PoEvents(l.n, FreshOrders(sh, l, orders)) :: ShowsEvent(snap, e))
      && (forall e | e in ClassificationEvents(sh, l) :: ShowsEvent(snap, e))
      && (forall e | e in StatusEvents(sh, l) :: ShowsEvent(snap, e))
  {
    hide Fresh, KeySet;
    var invs, fb := l.fetched.invitations, l.fetched.feedback;
    FreshMembers(invs, CommunicationKey, TruthyIds(invs, CommunicationKey) - TruthyIds(l.prev.invitations, CommunicationKey), sh.published.invites);
    FreshMembers(fb, CommunicationKey, TruthyIds(fb, CommunicationKey) - TruthyIds(l.prev.feedback, CommunicationKey), sh.published.feedback);
    FreshMembers(awards, AwardKey, TruthyIds(awards, AwardKey) - l.prev.awardIds, sh.published.awards);
    FreshMembers(orders, OrderKey, TruthyIds(orders, OrderKey) - l.prev.orderIds, sh.published.orders);
    forall e | e in RfqEvents(l.n, FreshInvitations(sh, l)) ensures ShowsEvent(BuildSnapshot(l, awards, orders), e) {
      var c := e.communication;
      assert c in FreshInvitations(sh, l) && c in invs && CommunicationKey(c) in TruthyIds(invs, CommunicationKey);
    }
    forall e | e in FeedbackEvents(l.n, FreshFeedback(sh, l)) ensures ShowsEvent(BuildSnapshot(l, awards, orders), e) {
      var c := e.communication;
      assert c in FreshFeedback(sh, l) && c in fb && CommunicationKey(c) in TruthyIds(fb, CommunicationKey);
    }
  }

  lemma DerivedEventsShown(l: Local, awards: seq<Award>, orders: seq<Order>)
    ensures forall e | e in DerivedEvents(l.n, FreshDerived(l)) :: ShowsEvent(BuildSnapshot(l, awards, orders), e)
  {
    UnseenSubset(Derived(l), TruthyIds(l.prev.invitations, CommunicationKey));
    DerivedAreAuto(Named(l), l.fetched.names);
    forall e | e in DerivedEvents(l.n, FreshDerived(l)) ensures ShowsEvent(BuildSnapshot(l, awards, orders), e) {
      assert e.communication in FreshDerived(l);
      assert IsAutoId(e.communication.communicationId);
    }
  }

  lemma OfferEventsShown(sh: Shared, l: Local, awards: seq<Award>, orders: seq<Order>, visit: seq<Id>)
    ensures forall e | e in OfferEvents(l.n, FreshOffers(sh, l, visit)) :: ShowsEvent(BuildSnapshot(l, awards, orders), e)
  {
    hide Fresh, BidsInOrder;
    FreshMembers(BidsInOrder(visit, Named(l)), BidKey, NewOffers(l), sh.published.offers);
    VisitedAreFirst(visit, Named(l));
    NewOffersHavePrices(l);
    hide NewOffers;
    forall e | e in OfferEvents(l.n, FreshOffers(sh, l, visit)) ensures ShowsEvent(BuildSnapshot(l, awards, orders), e) {
      assert e.bid in FreshOffers(sh, l, visit);
    }
  }

  lemma DiffEventsShown(sh: Shared, l: Local, awards: seq<Award>, orders: seq<Order>, visit: seq<Id>)
    ensures forall e | e in DiffEvents(sh, l, awards, visit) :: ShowsEvent(BuildSnapshot(l, awards, orders), e)
  {
    hide ShowsEvent, FreshInvitations, FreshFeedback, FreshDerived, FreshOffers, FreshAwards, ClassificationEvents, BuildSnapshot;
    RowEventsShown(sh, l, awards, orders);
    DerivedEventsShown(l, awards, orders);
    OfferEventsShown(sh, l, awards, orders, visit);
  }

  // ---------------------------------------------------------------- along a run

  /** Some poll shows the row the event is about. */
  ghost predicate ShownBy(s: System, e: Event) {
    exists p | p in s.pollers :: SnapOf(s.pollers[p]).Some? && ShowsEvent(SnapOf(s.pollers[p]).value, e)
  }

  ghost predicate AllShown(s: System) {
    && (forall p | p in s.pollers :: Whole(s.pollers[p]))
    && (forall i | 0 <= i < |s.sh.bus.log| :: ShownBy(s, s.sh.bus.log[i]))
  }

  /** Snapshots stay where they are. */
  ghost predicate KeepsSnaps(s: System, s': System) {
    forall p | p in s.pollers && SnapOf(s.pollers[p]).Some? ::
      p in s'.pollers && SnapOf(s'.pollers[p]) == SnapOf(s.pollers[p])
  }

  lemma StaysShown(s: System, s': System, e: Event)
    requires ShownBy(s, e) && KeepsSnaps(s, s')
    ensures ShownBy(s', e)
  {
  }

  /** A poll about to resume has no snapshot yet. */
  lemma ResumerHasNone(s: System, step: Step)
    requires Enabled(s, step) && Resumes(step)
    ensures step.p in s.pollers && SnapOf(s.pollers[step.p]).None?
  {
    hide CanChoose;
  }

  lemma StepKeepsSnaps(s: System, step: Step)
    requires Enabled(s, step) && forall p | p in s.pollers :: Whole(s.pollers[p])
    ensures KeepsSnaps(s, Apply(s, step))
    ensures forall p | p in Apply(s, step).pollers :: Whole(Apply(s, step).pollers[p])
  {
    hide Enabled, Apply, Whole;
    if NamesPoll(step) {
      StepMoves(s, step);
      if Resumes(step) {
        ResumerHasNone(s, step);
        ResumerWhole(s, step);
      } else {
        OtherMoverWhole(s, step);
      }
    } else {
      OtherPollersStay(s, step);
    }
  }

  /** What a poll publishes at its diff, and right after it, its snapshot shows. */
  lemma ProceedShows(s: System, p: nat, l: Local, awards: seq<Award>, orders: seq<Order>, visit: seq<Id>, id: Id)
    ensures var s', snap := Proceed(s, p, l, awards, orders, visit, id), BuildSnapshot(l, awards, orders);
      && s.sh.bus.log <= s'.sh.bus.log && SnapOf(s'.pollers[p]) == Some(snap)
      && forall i | |s.sh.bus.log| <= i < |s'.sh.bus.log| :: ShowsEvent(snap, s'.sh.bus.log[i])
  {
    hide Proceed, BuildSnapshot, DiffEvents, ShowsEvent, FreshOrders, StatusEvents, Diff, NextStatus, Processed, ShowsNew;
    var sh1, snap := Diff(s.sh, l, awards, orders, visit), BuildSnapshot(l, awards, orders);
    ProceedEffects(s, p, l, awards, orders, visit, id);
    var log, es := s.sh.bus.log, DiffEvents(s.sh, l, awards, visit);
    var po, st := PoEvents(l.n, FreshOrders(sh1, l, orders)), StatusEvents(s.sh, l);
    DiffEventsShown(s.sh, l, awards, orders, visit);
    TailEventsShown(sh1, s.sh, l, awards, orders);
    NewEventsShown(snap, log, es, []);
    NewEventsShown(snap, log, es, po + st);
    assert log + es + [] == log + es;
    NewIsNew(snap, log, Proceed(s, p, l, awards, orders, visit, id).sh.bus.log);
  }

  /** Everything in `now` beyond `log` is shown. */
  ghost predicate ShowsNew(snap: Snapshot, log: seq<Event>, now: seq<Event>) {
    log <= now && forall i | |log| <= i < |now| :: ShowsEvent(snap, now[i])
  }

  lemma NewIsNew(snap: Snapshot, log: seq<Event>, now: seq<Event>)
    requires ShowsNew(snap, log, now)
    ensures log <= now && forall i | |log| <= i < |now| :: ShowsEvent(snap, now[i])
  {
  }

  lemma NewEventsShown(snap: Snapshot, log: seq<Event>, es: seq<Event>, tail: seq<Event>)
    requires (forall e | e in es :: ShowsEvent(snap, e)) && forall e | e in tail :: ShowsEvent(snap, e)
    ensures ShowsNew(snap, log, log + es + tail)
  {
    hide ShowsEvent;
    var now := log + es + tail;
    forall i | |log| <= i < |now| ensures ShowsEvent(snap, now[i]) {
      if i < |log| + |es| { assert now[i] == es[i - |log|]; } else { assert now[i] == tail[i - |log| - |es|]; }
    }
  }

  lemma TailEventsShown(sh1: Shared, sh: Shared, l: Local, awards: seq<Award>, orders: seq<Order>)
    ensures forall e | e in PoEvents(l.n, FreshOrders(sh1, l, orders)) + StatusEvents(sh, l) ::
              ShowsEvent(BuildSnapshot(l, awards, orders), e)
  {
    hide ShowsEvent, FreshOrders, StatusEvents, BuildSnapshot;
    RowEventsShown(sh1, l, awards, orders);
    RowEventsShown(sh, l, awards, orders);
  }

  lemma PutShows(s: System, step: Step)
    requires Enabled(s, step) && step.PutDone? && Whole(s.pollers[step.p])
    ensures var s', snap := Apply(s, step), s.pollers[step.p].snapshot;
      && s.sh.bus.log <= s'.sh.bus.log && step.p in s'.pollers && SnapOf(s'.pollers[step.p]) == Some(snap)
      && forall i | |s.sh.bus.log| <= i < |s'.sh.bus.log| :: ShowsEvent(snap, s'.sh.bus.log[i])
  {
    hide Finish, ListsIds;
    FinishEffects(s.sh, s.pollers[step.p].l, s.pollers[step.p].snapshot, []);
    assert FreshOrders(s.sh, s.pollers[step.p].l, []) == [];
  }

  /** New events of a step are shown by the poll that takes it. */
  lemma StepShows(s: System, step: Step)
    requires Enabled(s, step) && forall p | p in s.pollers :: Whole(s.pollers[p])
    ensures s.sh.bus.log <= Apply(s, step).sh.bus.log
    ensures forall i | |s.sh.bus.log| <= i < |Apply(s, step).sh.bus.log| :: ShownBy(Apply(s, step), Apply(s, step).sh.bus.log[i])
  {
    hide Apply, Proceed, Diffs, PublisherLocal, PublisherAwards, OrdersInHand, ShowsEvent, BuildSnapshot, Whole, CanChoose;
    if step.PutDone? {
      PutShows(s, step);
    } else if !Resumes(step) {
      OtherStepsAreQuiet(s, step);
    } else if Diffs(s, step) {
      ResumeDiffs(s, step);
      ProceedShows(s.(sh := Noted(s, step)), step.p, PublisherLocal(s, step), PublisherAwards(s, step), OrdersInHand(s, step),
                   step.visit, step.id);
    } else {
      ResumeWaits(s, step);
    }
  }

  lemma StepAllShown(s: System, step: Step)
    requires AllShown(s) && Enabled(s, step)
    ensures AllShown(Apply(s, step))
  {
    hide Enabled, Apply, Whole, ShownBy, KeepsSnaps;
    var s' := Apply(s, step);
    StepKeepsSnaps(s, step);
    StepShows(s, step);
    forall i | 0 <= i < |s'.sh.bus.log| ensures ShownBy(s', s'.sh.bus.log[i]) {
      if i < |s.sh.bus.log| { StaysShown(s, s', s.sh.bus.log[i]); }
    }
  }

  lemma {:induction false} RunAllShown(steps: seq<Step>)
    requires Legal(START, steps)
    ensures AllShown(Exec(START, steps))
  {
    hide Apply, Enabled, AllShown;
    if steps == [] {
      StartAllShown();
    } else {
      RunAllShown(steps[..|steps| - 1]);
      StepAllShown(Exec(START, steps[..|steps| - 1]), steps[|steps| - 1]);
    }
  }

  lemma StartAllShown()
    ensures AllShown(START)
  {
  }

  lemma ReachableAllShown(s: System)
    requires Reachable(s)
    ensures AllShown(s) && Safe(s)
  {
    hide Apply, Enabled, AllShown, Safe;
    var steps :| Legal(START, steps) && Exec(START, steps) == s;
    RunAllShown(steps);
    StartSafe();
    RunSafe(START, steps);
  }

  // ---------------------------------------------------------------- main results

  /**
   * No event without its row: in every reachable state each published event is
   * about a row, with an id, that some poll's snapshot shows; an offer is the
   * first bid of its id, and that id has a row with an amount or a total amount.
   */
  lemma AnnouncedIsShown(s: System, e: Event)
    requires Reachable(s) && e in s.sh.bus.log
    ensures exists p | p in s.pollers :: SnapOf(s.pollers[p]).Some? && ShowsEvent(SnapOf(s.pollers[p]).value, e)
  {
    hide Reachable;
    ReachableAllShown(s);
  }

  /**
   * No row without its event: once a poll has returned a snapshot, each bid in
   * it with an amount or a total amount, and each feedback, award, order and
   * stored invitation with an id, has exactly one event; and so has the
   * classification, if it shows a quadrant or a strategy.
   */
  lemma ShownIsAnnounced(s: System, p: nat, snap: Snapshot)
    requires Reachable(s) && p in s.pollers && s.pollers[p] == Done(Some(snap))
    ensures forall b | b in snap.bids && (b.amount != 0.0 || b.totalAmount != 0.0) ::
              Once(s.sh.bus.log, (e: Event) => e.OfferReceived? && e.bid.bidId == b.bidId)
    ensures forall c | c in snap.feedback && c.communicationId != "" ::
              Once(s.sh.bus.log, (e: Event) => e.AuctionRoundFeedback? && e.communication.communicationId == c.communicationId)
    ensures forall c | c in snap.invitations && c.communicationId != "" && !("auto-" <= c.communicationId) ::
              Once(s.sh.bus.log, (e: Event) => e.RfqSent? && !e.derived && e.communication.communicationId == c.communicationId)
    ensures forall a | a in snap.awards && a.awardId != "" ::
              Once(s.sh.bus.log, (e: Event) => e.AwardIssued? && e.award.awardId == a.awardId)
    ensures forall o | o in snap.orders && o.orderId != "" ::
              Once(s.sh.bus.log, (e: Event) => e.PoIssued? && e.order.orderId == o.orderId)
    ensures snap.quadrant != "" || snap.strategy != "" ==>
              Once(s.sh.bus.log, (e: Event) => e.ClassificationDefined? && e.negotiationId == snap.negotiationId)
  {
    hide Reachable, Once, AtMostOnce, Marked, Logged, AllShown, CoveredWithOrders, ListsIds, KeyOf;
    ReachableAllShown(s);
    SnapshotIsCovered(s, p, snap);
    RowsMarked(snap, s.sh.published);
    CommunicationsAnnounced(s.sh, snap);
    ItemsAnnounced(s.sh, snap);
  }

  lemma SnapshotIsCovered(s: System, p: nat, snap: Snapshot)
    requires AllShown(s) && Safe(s) && p in s.pollers && s.pollers[p] == Done(Some(snap))
    ensures CoveredWithOrders(snap, s.sh.published) && ListsIds(snap)
    ensures AtMostOnce(s.sh.bus.log) && forall k :: Logged(s.sh.bus.log, k) <==> Marked(s.sh.published, k)
  {
    hide ListsIds, CoveredWithOrders;
    assert Whole(s.pollers[p]) && PcSafe(s.pollers[p], s.sh.published);
  }

  lemma CommunicationsAnnounced(sh: Shared, snap: Snapshot)
    requires AtMostOnce(sh.bus.log) && forall k :: Logged(sh.bus.log, k) <==> Marked(sh.published, k)
    requires forall c | c in snap.feedback && c.communicationId != "" :: Marked(sh.published, EventKey(Feedback, c.communicationId))
    requires forall c | c in snap.invitations && c.communicationId != "" && !("auto-" <= c.communicationId) ::
               Marked(sh.published, EventKey(Rfq, c.communicationId))
    ensures forall c | c in snap.feedback && c.communicationId != "" ::
              Once(sh.bus.log, (e: Event) => e.AuctionRoundFeedback? && e.communication.communicationId == c.communicationId)
    ensures forall c | c in snap.invitations && c.communicationId != "" && !("auto-" <= c.communicationId) ::
              Once(sh.bus.log, (e: Event) => e.RfqSent? && !e.derived && e.communication.communicationId == c.communicationId)
  {
    hide Once, AtMostOnce, Marked, Logged;
    var log := sh.bus.log;
    forall c | c in snap.feedback && c.communicationId != ""
      ensures Once(log, (e: Event) => e.AuctionRoundFeedback? && e.communication.communicationId == c.communicationId)
    {
      KeyOnce(log, EventKey(Feedback, c.communicationId),
              (e: Event) => e.AuctionRoundFeedback? && e.communication.communicationId == c.communicationId);
    }
    forall c | c in snap.invitations && c.communicationId != "" && !("auto-" <= c.communicationId)
      ensures Once(log, (e: Event) => e.RfqSent? && !e.derived && e.communication.communicationId == c.communicationId)
    {
      KeyOnce(log, EventKey(Rfq, c.communicationId),
              (e: Event) => e.RfqSent? && !e.derived && e.communication.communicationId == c.communicationId);
    }
  }

  lemma ItemsAnnounced(sh: Shared, snap: Snapshot)
    requires AtMostOnce(sh.bus.log) && forall k :: Logged(sh.bus.log, k) <==> Marked(sh.published, k)
    requires forall b | b in snap.bids && (b.amount != 0.0 || b.totalAmount != 0.0) :: Marked(sh.published, EventKey(Offer, b.bidId))
    requires forall a | a in snap.awards && a.awardId != "" :: Marked(sh.published, EventKey(AwardKind, a.awardId))
    requires forall o | o in snap.orders && o.orderId != "" :: Marked(sh.published, EventKey(Po, o.orderId))
    requires snap.quadrant != "" || snap.strategy != "" ==> Marked(sh.published, EventKey(Classification, snap.negotiationId))
    ensures forall b | b in snap.bids && (b.amount != 0.0 || b.totalAmount != 0.0) ::
              Once(sh.bus.log, (e: Event) => e.OfferReceived? && e.bid.bidId == b.bidId)
    ensures forall a | a in snap.awards && a.awardId != "" ::
              Once(sh.bus.log, (e: Event) => e.AwardIssued? && e.award.awardId == a.awardId)
    ensures forall o | o in snap.orders && o.orderId != "" ::
              Once(sh.bus.log, (e: Event) => e.PoIssued? && e.order.orderId == o.orderId)
    ensures snap.quadrant != "" || snap.strategy != "" ==>
              Once(sh.bus.log, (e: Event) => e.ClassificationDefined? && e.negotiationId == snap.negotiationId)
  {
    hide Once, AtMostOnce, Marked, Logged;
    var log := sh.bus.log;
    forall b | b in snap.bids && (b.amount != 0.0 || b.totalAmount != 0.0)
      ensures Once(log, (e: Event) => e.OfferReceived? && e.bid.bidId == b.bidId)
    {
      KeyOnce(log, EventKey(Offer, b.bidId), (e: Event) => e.OfferReceived? && e.bid.bidId == b.bidId);
    }
    forall a | a in snap.awards && a.awardId != "" ensures Once(log, (e: Event) => e.AwardIssued? && e.award.awardId == a.awardId) {
      KeyOnce(log, EventKey(AwardKind, a.awardId), (e: Event) => e.AwardIssued? && e.award.awardId == a.awardId);
    }
    forall o | o in snap.orders && o.orderId != "" ensures Once(log, (e: Event) => e.PoIssued? && e.order.orderId == o.orderId) {
      KeyOnce(log, EventKey(Po, o.orderId), (e: Event) => e.PoIssued? && e.order.orderId == o.orderId);
    }
    if snap.quadrant != "" || snap.strategy != "" {
      KeyOnce(log, EventKey(Classification, snap.negotiationId),
              (e: Event) => e.ClassificationDefined? && e.negotiationId == snap.negotiationId);
    }
  }

  /** The ids a covered snapshot shows are marked. */
  lemma RowsMarked(snap: Snapshot, p: Published)
    requires CoveredWithOrders(snap, p) && ListsIds(snap)
    ensures forall b | b in snap.bids && (b.amount != 0.0 || b.totalAmount != 0.0) :: Marked(p, EventKey(Offer, b.bidId))
    ensures forall c | c in snap.feedback && c.communicationId != "" :: Marked(p, EventKey(Feedback, c.communicationId))
    ensures forall c | c in snap.invitations && c.communicationId != "" && !("auto-" <= c.communicationId) ::
              Marked(p, EventKey(Rfq, c.communicationId))
    ensures forall a | a in snap.awards && a.awardId != "" :: Marked(p, EventKey(AwardKind, a.awardId))
    ensures forall o | o in snap.orders && o.orderId != "" :: Marked(p, EventKey(Po, o.orderId))
    ensures snap.quadrant != "" || snap.strategy != "" ==> Marked(p, EventKey(Classification, snap.negotiationId))
  {
    IdsOfRows(snap.feedback, CommunicationKey);
    IdsOfRows(snap.invitations, CommunicationKey);
    forall b | b in snap.bids && (b.amount != 0.0 || b.totalAmount != 0.0) ensures b.bidId in PricedIds(snap.bids) {
      var i :| 0 <= i < |snap.bids| && snap.bids[i] == b;
      var fp := (b.bidId, Price(b), b.rank);
      assert fp in Fingerprints(snap.bids);
      assert fp.0 in PricedIds(snap.bids);
    }
    forall c | c in snap.feedback && c.communicationId != "" ensures CommunicationKey(c) in TruthyIds(snap.feedback, CommunicationKey) {}
    forall c | c in snap.invitations && c.communicationId != ""
      ensures CommunicationKey(c) in TruthyIds(snap.invitations, CommunicationKey) {}
  }

  // ---------------------------------------------------------------- offers, from the reads on

  /** Some poll has had such a row back from its bids read by the end of the run. */
  ghost predicate PriceRead(steps: seq<Step>, id: Id)
    requires Legal(START, steps)
    decreases |steps|
  {
    || (exists p | p in Exec(START, steps).pollers ::
          && Exec(START, steps).pollers[p].Fetching? && Exec(START, steps).pollers[p].bids.Some?
          && HasPrice(Exec(START, steps).pollers[p].bids.value, id))
    || (steps != [] && PriceRead(steps[..|steps| - 1], id))
  }

  /** The bid rows a poll holds. */
  ghost function BidsHeld(pc: Pc): seq<Bid> {
    match pc
    case Fetching(_, _, bids, _, _) => if bids.Some? then bids.value else []
    case AwaitPut(_, snap, _) => snap.bids
    case Done(result) => if result.Some? then result.value.bids else []
    case _ => Holds(pc).value.fetched.bids
  }

  lemma PublisherBids(s: System, step: Step)
    requires Enabled(s, step) && Resumes(step)
    ensures step.p in s.pollers && BidsHeld(s.pollers[step.p]) == PublisherLocal(s, step).fetched.bids
  {
    hide CanChoose;
  }

  lemma ResumerHoldsPrices(s: System, step: Step, id: Id)
    requires Enabled(s, step) && Resumes(step) && step.p in Apply(s, step).pollers
    requires HasPrice(BidsHeld(Apply(s, step).pollers[step.p]), id)
    ensures step.p in s.pollers && HasPrice(BidsHeld(s.pollers[step.p]), id)
  {
    hide Enabled, Apply, Proceed, Diffs, DiffEvents, PublisherLocal, PublisherAwards, OrdersInHand, HasPrice;
    var l, awards, orders := PublisherLocal(s, step), PublisherAwards(s, step), OrdersInHand(s, step);
    PublisherBids(s, step);
    NamedKeepPrices(l);
    BidsOfSnapshot(l, awards, orders);
    NoPrice(id);
    if Diffs(s, step) {
      hide BuildSnapshot;
      ResumeDiffs(s, step);
      ProceedEffects(s.(sh := Noted(s, step)), step.p, l, awards, orders, step.visit, step.id);
    } else {
      ResumeWaits(s, step);
    }
  }

  lemma BidsOfSnapshot(l: Local, awards: seq<Award>, orders: seq<Order>)
    ensures BuildSnapshot(l, awards, orders).bids == Named(l)
  {
  }

  lemma NoPrice(id: Id)
    ensures !HasPrice([], id)
  {
  }

  lemma OtherMoverHoldsPrices(s: System, step: Step, id: Id)
    requires Enabled(s, step) && NamesPoll(step) && !Resumes(step) && step.p in Apply(s, step).pollers
    requires HasPrice(BidsHeld(Apply(s, step).pollers[step.p]), id) && !Apply(s, step).pollers[step.p].Fetching?
    ensures step.p in s.pollers && HasPrice(BidsHeld(s.pollers[step.p]), id)
  {
    hide CanChoose, AfterFetch, WithOrders, NextDelete, Finish, HasPrice;
    NoPrice(id);
  }

  /** Every priced row a poll holds was read. */
  lemma {:induction false} HeldIsRead(steps: seq<Step>, p: nat, id: Id)
    requires Legal(START, steps) && p in Exec(START, steps).pollers && HasPrice(BidsHeld(Exec(START, steps).pollers[p]), id)
    ensures PriceRead(steps, id)
  {
    hide Apply, Enabled, HasPrice;
    NoPrice(id);
    var s' := Exec(START, steps);
    if !s'.pollers[p].Fetching? {
      var init, last := steps[..|steps| - 1], steps[|steps| - 1];
      var s := Exec(START, init);
      if NamesPoll(last) {
        StepMoves(s, last);
        if last.p == p {
          if Resumes(last) { ResumerHoldsPrices(s, last, id); } else { OtherMoverHoldsPrices(s, last, id); }
        }
      } else {
        OtherPollersStay(s, last);
      }
      HeldIsRead(init, p, id);
    }
  }

  /**
   * Once a poll has returned a snapshot, every bid it read with an amount or a
   * total amount has exactly one offer_received, whatever else has run.
   */
  lemma PricedBidIsOffered(before: seq<Step>, p: nat, r: Reads, after: seq<Step>, snap: Snapshot, id: Id)
    requires Legal(START, before) && p in Exec(START, before).pollers && HasRead(Exec(START, before).pollers[p], r)
    requires Legal(Exec(START, before), after)
    requires var s := Exec(Exec(START, before), after); p in s.pollers && s.pollers[p] == Done(Some(snap))
    ensures HasPrice(r.bids, id) ==>
              Once(Exec(Exec(START, before), after).sh.bus.log, (e: Event) => e.OfferReceived? && e.bid.bidId == id)
  {
    hide Apply, Enabled, Exec, Legal, Once;
    var s := Exec(START, before);
    SnapshotShowsReads(s, p, r, after, snap);
    assert Reachable(s);
    PollRuns.RunIsReachable(s, after);
    ShownIsAnnounced(Exec(s, after), p, snap);
    if HasPrice(r.bids, id) {
      var row :| row in r.bids && row.bidId == id && (row.amount != 0.0 || row.totalAmount != 0.0);
      var i :| 0 <= i < |r.bids| && r.bids[i] == row;
      assert snap.bids[i] in snap.bids;
      assert snap.bids[i].bidId == id;
    }
  }

  /** A bid none of whose rows read so far has an amount or a total amount has no offer_received. */
  lemma NoOfferWithoutPrice(steps: seq<Step>, id: Id)
    requires Legal(START, steps) && !PriceRead(steps, id)
    ensures forall e | e in Exec(START, steps).sh.bus.log && e.OfferReceived? :: e.bid.bidId != id
  {
    hide Apply, Enabled, PriceRead;
    var s := Exec(START, steps);
    assert Reachable(s);
    forall e | e in s.sh.bus.log && e.OfferReceived? ensures e.bid.bidId != id {
      AnnouncedIsShown(s, e);
      var p :| p in s.pollers && SnapOf(s.pollers[p]).Some? && ShowsEvent(SnapOf(s.pollers[p]).value, e);
      assert HasPrice(BidsHeld(s.pollers[p]), e.bid.bidId);
      HeldIsRead(steps, p, e.bid.bidId);
    }
  }
}
