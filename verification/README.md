# Verification of the procurement demo's event projection and requisition flow

A Dafny model of the parts of the repository that are hard to get right by
reading them: the supplier-offer projection of the demo harness as a concurrent
step machine, the stub-mode requisition lifecycle with its negotiation report,
and the joins, folds and bulk deletes around them. `dafny verify dfyconfig.toml`
checks everything.

## What is modelled

**The offer projection** (`Projection`, `PollMachine`, `OfferProjection`). A
poll of a negotiation runs on one event loop and suspends only while it waits
for a table call. The stretches between two suspensions are functions on the
shared state (`Projection`): compare with the previous snapshot, publish and
save; claim a synthetic order; publish orders and status and save again. The
step machine (`PollMachine`) runs any number of polls, for any negotiations. A
table call runs on a thread, so a read, put or delete takes effect at its own
moment (`Read`, `Scan`, `PutLands`, `DeleteLands`), and the poll resumes later,
or gives up waiting while a put or delete is still in flight. Every read, put and
delete may fail, and the tables may change at any time, synthetic orders being
removed by others included. The class
`OfferProjection` is the code's own shape, a mutable object with loops, and
each of its methods is proved to do exactly what the functions and the machine's
steps say. A run is any list of steps, from the initial state, in which each is
enabled.

**The requisition lifecycle** (`Requisitions`, `StubStore`). One requisition
is a clock-driven state machine advanced lazily on reads; the routes guard the
decisions. `StubStore` is the in-memory store with each route as one atomic
method. `NegotiationReport` groups line items by category and reconciles the
totals row with the order.

**Joins, folds and deletes** (`SupplierRfqs`, `SfnGraph`, `OrderRows`,
`ResetDemo`). The supplier's request-for-quote join, the Step Functions history
fold, the order row normaliser, and the tenant reset.

Assumptions: one event loop; table reads are linearizable (a scan returns every
row once); `uuid4` yields an id no order has had, and no one else writes a row
under an id generated here; `json.loads` undoes
`json.dumps`; money is `real`; rows carry the id fields the code indexes
directly; the clock does not run backwards between route calls. Absent strings
and empty strings are both `""`, since the code treats them alike where it
tests them.

## What the proofs found

- The claim that all seven event types are guarded against duplicates
  (demo-harness-project/README.md:168-171) fails for two of them under
  concurrent polls. `rfq_sent` events derived from bids have no guard set:
  `OverlappingPollsRepeat` is a run that announces one twice,
  `RepeatsExactlyWhenForgotten` says exactly which runs do. `status_change` is
  guarded only against the last status: in `LatePollRepeatsStatusChange` a poll
  that finishes late moves the published status back, and the identical change
  is published again; `StatusRepeatsExactlyWhenMoveRecurs` says exactly when.
  Both kinds are free of duplicates when polls of a negotiation do not overlap
  and its rows are kept or its status does not return (`SerialPollsNeverRepeat`,
  `SerialPollsAnnounceEachStatusOnce`). The keys of the other kinds, and of
  stored invitations, are proved unique in every reachable state.
- The claim that the order section always shows the canonical order
  (demo-harness-project/README.md:160-164) fails in two ways: when the order read
  fails, which counts as an empty list (`FailedReadHidesRealOrder` is a run), and
  when another poll's delete of the synthetic order returns between a poll's scan
  and its resumption (`DeletedOrderIsShown` is a run). `CanonicalExactly` says
  that there is no third way for a poll that gets past its order read.
- A stream whose snapshot's award read fails never shows the awards published
  before it subscribed (`AwardMissedExactly`; `AwardCanBeMissed` is a run). The
  same holds for real orders and the order read (`RealOrderMissedExactly`).
- The comparison with the previous snapshot is redundant for every guarded event
  (`PreviousSnapshotIsRedundant`): the guard sets alone decide what is published,
  unless a stored invitation has the id of a derived one.
- The cancel route has no guard against finished requisitions: a COMPLETED one
  can be cancelled after its purchase order was emitted, and the order stays
  (`CancelledAfterApproval`).

## Noticed while modelling

Two observations from reading the code; no lemma states them.

- After a successful put the code logs `po_payload["total_value"]`, a key the
  payload does not have (offer_projection.py line 503). The exception is caught by
  the surrounding handler, so the only effect is a misleading log line, and the
  put counts as done either way.
- `state["order_ids"]` is rewritten in place (line 534) while another poll may
  hold the same dictionary as its previous snapshot. The ids written are the ones
  already there, so the sharing cannot be observed.

## Model

| member | source | states |
|---|---|---|
| `PollSafety.EventsAtMostOnce` | demo-harness-project/backend/src/demo_harness/offer_projection.py:161-558 | In every reachable state, whatever polls, failures, listeners and table changes led to it, the log holds no two events for one stored communication id (rfq_sent), feedback communication, bid, award or order, and no two classifications of one negotiation; an id is in its guard set exactly when its event is in the log |
| `PollSafety.SnapshotsStayCovered` | demo-harness-project/backend/src/demo_harness/offer_projection.py:332-557 | Every snapshot that was ever the saved state, or was handed to a caller, shows only ids whose events are published, from then on and whatever older snapshot later overwrites it |
| `SnapshotRows.SnapshotShowsReads` | demo-harness-project/backend/src/demo_harness/offer_projection.py:332-350 | Once its four reads are back, a poll, whatever runs until it is done, returns a snapshot of exactly those rows: the negotiation's fields, each bid with its supplier's name filled in, the feedback, and the stored invitations or else one per bidding supplier, named after its first bid |
| `SnapshotRows.GivesUpExactly` | demo-harness-project/backend/src/demo_harness/offer_projection.py:174-175 | With all reads back a poll gives up if and only if there is neither a negotiation row nor a saved snapshot |
| `SnapshotRows.ReadsTakeTheTables` | demo-harness-project/backend/src/demo_harness/offer_projection.py:150-158 | Each of the four reads takes what its table holds for the negotiation at that moment |
| `SnapshotRows.SnapshotShowsAwards` | demo-harness-project/backend/src/demo_harness/offer_projection.py:181-189 | A poll past its award read returns the awards it went on with |
| `SnapshotRows.AwardsAreRead` | demo-harness-project/backend/src/demo_harness/offer_projection.py:181-189 | The award read takes the requisition's awards; a failed one counts as none |
| `AnnouncedRows.ShownIsAnnounced` | demo-harness-project/backend/src/demo_harness/offer_projection.py:226-533 | No row without its event: once a poll has returned a snapshot, each bid in it with an amount or a total amount, and each feedback, award, order and stored invitation with an id, has exactly one event, and so has the classification if a quadrant or strategy is shown |
| `AnnouncedRows.AnnouncedIsShown` | demo-harness-project/backend/src/demo_harness/offer_projection.py:226-555 | No event without its row: in every reachable state each published event is about a row, with an id, that some poll's snapshot shows; an offer is the first bid of its id, and some row of that id has an amount or a total amount |
| `AnnouncedRows.PricedBidIsOffered` | demo-harness-project/backend/src/demo_harness/offer_projection.py:277-290 | From the reads on: a bid read with an amount or a total amount has exactly one offer_received once the poll has returned a snapshot |
| `AnnouncedRows.NoOfferWithoutPrice` | demo-harness-project/backend/src/demo_harness/offer_projection.py:277-290 | Over any run, a bid none of whose rows read so far has an amount or a total amount has no offer_received |
| `PollMachine.EveryWaitMayEnd` | demo-harness-project/backend/src/demo_harness/offer_projection.py:165-219 | Every read and delete may fail at any time, and a put may be over whether or not it has landed |
| `PollSafety.StepSafe` | demo-harness-project/backend/src/demo_harness/offer_projection.py:161-558 | Every step a poll, the tables or a listener can take keeps: guards match the log, saved and in-flight snapshots are covered |
| `PollSafety.RunSafe` | demo-harness-project/backend/src/demo_harness/offer_projection.py:161-558 | The invariant holds along whole runs, and guard sets only grow |
| `EventGuards.EmissionIsExact` | demo-harness-project/backend/src/demo_harness/offer_projection.py:226-441 | Refinement of the two-stage check by a guard-only one: with a covered previous snapshot, however stale, each publish block emits exactly the current ids minus the published ids (for offers: the ids of bids read with an amount or a total amount, whatever order the set is visited in; for orders: lines 509-533) |
| `EventGuards.ClassificationIsExact` | demo-harness-project/backend/src/demo_harness/offer_projection.py:356-380 | Whether classification_defined fires does not depend on the previous snapshot: it fires exactly when unpublished and a quadrant or strategy is known |
| `GuardsSuffice.PreviousSnapshotIsRedundant` | demo-harness-project/backend/src/demo_harness/offer_projection.py:226-441 | In every reachable state the whole diff of a resuming poll publishes the same guarded events in the same order, and leaves the same guards, as without a previous snapshot, if and only if no unpublished stored invitation has an id its previous snapshot lists |
| `GuardsSuffice.ShadowedIsReserved` | demo-harness-project/backend/src/demo_harness/offer_projection.py:298-311 | That can happen only to a stored invitation whose id has the form of a derived one |
| `GuardsSuffice.TailNeedsNoPrevious` | demo-harness-project/backend/src/demo_harness/offer_projection.py:509-557 | The tail after the diff never depends on the previous snapshot |
| `EventGuards.FreshExact` | demo-harness-project/backend/src/demo_harness/offer_projection.py:231-250 | The ids a guarded loop publishes are the wanted, unpublished ones, each once, and only rows at hand are published |
| `EventGuards.FreshInOrder` | demo-harness-project/backend/src/demo_harness/offer_projection.py:231-250 | A guarded loop takes rows in the order they come, and of several rows with one id the first |
| `EventGuards.DiffEffects` | demo-harness-project/backend/src/demo_harness/offer_projection.py:226-441 | The events of a whole diff are those of its blocks one after the other, each decided by its own guard set alone, and the guards grow by exactly the ids published |
| `EventGuards.FinishEffects` | demo-harness-project/backend/src/demo_harness/offer_projection.py:509-557 | The tail publishes the new orders and then at most one status change, records the status and saves the snapshot |
| `EventGuards.OffersAreExact` | demo-harness-project/backend/src/demo_harness/offer_projection.py:277-290 | Comparing fingerprints with a covered snapshot loses no priced bid: the offers published are exactly the bids read with an amount or a total amount and not yet published |
| `EventGuards.DiffKeepsGuards` | demo-harness-project/backend/src/demo_harness/offer_projection.py:226-441 | One uninterrupted diff keeps guards and log in agreement and never empties a guard |
| `EventGuards.DiffCovers` | demo-harness-project/backend/src/demo_harness/offer_projection.py:332-350 | After the diff, everything in the snapshot just saved (orders aside) has been published |
| `EventGuards.FinishKeepsGuards` | demo-harness-project/backend/src/demo_harness/offer_projection.py:509-557 | The orders-and-status tail keeps guards and log in agreement |
| `EventGuards.FinishCovers` | demo-harness-project/backend/src/demo_harness/offer_projection.py:509-557 | After the tail, the order ids of the saved snapshot have been published too |
| `PollStreams.QueueIsViewOfLog` | demo-harness-project/backend/src/demo_harness/offer_projection.py:93-119 | From its subscription until it leaves, a queue holds exactly the log entries of its scope (one negotiation, or all) since then, in order and once each, in any interleaving |
| `PollStreams.LeavingIsPrivate` | demo-harness-project/backend/src/demo_harness/offer_projection.py:103-108 | Unsubscribing one queue changes no other queue's contents or registrations, and removes that queue from every list it listened on |
| `PollStreams.LeftQueueGetsNothing` | demo-harness-project/backend/src/demo_harness/offer_projection.py:103-119 | After leaving, a queue receives nothing for the rest of any run |
| `PollStreams.StepAdds` | demo-harness-project/backend/src/demo_harness/offer_projection.py:226-555 | What a resuming poll publishes is a list of events each carrying a row it has read (invitation, feedback, named bid, award, order in hand, classification, status) or an invitation derived from its bids, appended to the log through the bus |
| `PollStreams.StatusChangesChain` | demo-harness-project/backend/src/demo_harness/offer_projection.py:536-555 | In every reachable state the status changes of a negotiation chain (the first names no previous status, each later one names the status before it and differs from it) and spell the statuses polls finished with, immediate repeats dropped |
| `StatusRepeats.LatePollRepeatsStatusChange` | demo-harness-project/backend/src/demo_harness/offer_projection.py:536-555 | Counterexample run from the initial state: the stored status moves once, and the identical status_change is published twice, because a poll that read the old status finishes late |
| `StatusRepeats.StatusRepeatsExactlyWhenMoveRecurs` | demo-harness-project/README.md:168-171 | The promise of no duplicates, for status_change: in every reachable state no identical change is published twice if and only if no move from one status to another recurs among the statuses polls finished with |
| `StatusRepeats.EachStatusOnceExactlyWhenNoneReturns` | demo-harness-project/backend/src/demo_harness/offer_projection.py:536-555 | In every reachable state no status is announced twice if and only if none that polls finished with recurs after a different one |
| `StatusRepeats.SerialPollsAnnounceEachStatusOnce` | demo-harness-project/backend/src/demo_harness/offer_projection.py:536-555 | On runs whose polls of the negotiation do not overlap and whose stored status never returns to an earlier one, each status is announced at most once; other negotiations are free |
| `StatusChain.StatusKeepsChain` | demo-harness-project/backend/src/demo_harness/offer_projection.py:536-555 | One status comparison extends the chain by at most one link and keeps the last published status equal to its end |
| `StatusChain.CompressIsStutterFree` | demo-harness-project/backend/src/demo_harness/offer_projection.py:536-555 | What dropping repeats means: no equal neighbours, the same set of statuses, the same last status |
| `EventBus.PublishAllView` | demo-harness-project/backend/src/demo_harness/offer_projection.py:111-119 | Publishing a list puts on each listening queue exactly the events of its scope, in order and once each |
| `EventBus.PublishAllSilent` | demo-harness-project/backend/src/demo_harness/offer_projection.py:111-119 | A queue registered nowhere receives nothing and stays unregistered |
| `EventBus.SubscribeKeepsValid` | demo-harness-project/backend/src/demo_harness/offer_projection.py:93-100 | A new queue starts empty, is registered once in its scope, and disturbs no other registration |
| `EventBus.UnsubscribeFrame` | demo-harness-project/backend/src/demo_harness/offer_projection.py:103-108 | Removing a queue filters it out of one list only |
| `StreamNoGap.StreamHasNoGap` | demo-harness-project/backend/src/demo_harness/observer.py:89-111 | Subscribe before poll leaves no gap: with growing tables, every invitation, feedback, bid or award ever published for the negotiation is in the snapshot the stream sends or on its queue, for any interleaving with other polls, save an award published before the subscription when the snapshot's award read failed |
| `StreamNoGap.AwardMissedExactly` | demo-harness-project/backend/src/demo_harness/offer_projection.py:181-189 | The failure the code swallows: an award published for the negotiation fails to reach the client if and only if the snapshot's award read failed and the award was published before the subscription |
| `MissedAward.AwardCanBeMissed` | demo-harness-project/backend/src/demo_harness/offer_projection.py:181-189 | A run in which that happens: an award is published, a client subscribes, and its own poll cannot read the awards |
| `OrderStream.RealOrderMissedExactly` | demo-harness-project/backend/src/demo_harness/offer_projection.py:190-201 | In any interleaving in which real orders stay in the table: a po_issued of a real order fails to reach a client, by snapshot and by queue, if and only if the snapshot's order read failed and the event was published before the client subscribed |
| `ClientStatus.ClientStatusIsLastPublished` | demo-harness-project/backend/src/demo_harness/observer.py:89-111 | In any interleaving the status a client shows, the last status change on its queue or else its snapshot's status, is the last one published |
| `StreamNoGap.RunSourced` | demo-harness-project/backend/src/demo_harness/offer_projection.py:122-158 | Over any run with growing tables, every logged event's row is still in the tables, and so is every row a poll holds |
| `StreamNoGap.SnapshotSeesSubscription` | demo-harness-project/backend/src/demo_harness/observer.py:92-103 | The snapshot of a poll started after the subscription shows every streamed row that was in the tables when the client subscribed, and, if its award read failed, those rows but no award |
| `SyntheticOrderSafety.SyntheticOrdersAreSafe` | demo-harness-project/backend/src/demo_harness/offer_projection.py:197-222 | In every interleaving: at most one synthetic order per negotiation, every one present in the table is tracked, deletes are only ever issued for synthetic ids and never for a real one |
| `SyntheticOrderSafety.MintedOnlyWhenApproved` | demo-harness-project/backend/src/demo_harness/offer_projection.py:448-461 | A synthetic order is minted only by a poll resuming from its order read, with status APPROVED, an award with an id, an empty order list (a failed read counts as empty) and no earlier mint, and the claim is set in that same step |
| `MintExactly.MintsWhenDue` | demo-harness-project/backend/src/demo_harness/offer_projection.py:448-497 | The converse: a poll going on from its order read with status APPROVED, some award with an id, no order of the requisition listed and no earlier claim mints: it claims the negotiation, tracks the id and waits for the put of an order with the first award's supplier, award id, total and savings |
| `MintExactly.MintsExactlyWhenDue` | demo-harness-project/backend/src/demo_harness/offer_projection.py:448-474 | In every reachable state those are exactly the steps that mint |
| `SyntheticOrderSafety.RealOrdersSurvive` | demo-harness-project/backend/src/demo_harness/offer_projection.py:203-222 | No step of any poll, landed put or landed delete removes or rewrites a real order |
| `SyntheticOrderSafety.RunOrdersSafe` | demo-harness-project/backend/src/demo_harness/offer_projection.py:161-558 | The invariant behind these holds along every run |
| `SyntheticOrderSafety.MintedOrderIsRecognised` | demo-harness-project/backend/src/demo_harness/offer_projection.py:453-497 | The row put for a synthetic order, read back, keeps its id, requisition, tenant, supplier, award, total and savings, passes a later poll's requisition filter and falls on the synthetic side of the split while tracked |
| `OrderRows.SyntheticRowRoundTrip` | test_tenant_app/backend/src/test_tenant_app/clients/dynamo_client.py:86-118 | Normalising the synthetic row gives back every field that was put, with reception status PENDING and no savings percentage |
| `OrderRows.ReceivedRowFields` | test_tenant_app/backend/src/test_tenant_app/clients/dynamo_client.py:86-118 | A received row's own ids win over its payload's, the status is RECEIVED until a reception status is set, and savings against the budget count only without a savings amount |
| `SyntheticOrderSafety.SplitMembers` | demo-harness-project/backend/src/demo_harness/offer_projection.py:197-204 | The requisition filter and the split neither lose, move nor invent an order |
| `OrderConvergence.PollReturnsShown` | demo-harness-project/backend/src/demo_harness/offer_projection.py:190-222 | In any interleaving, the snapshot a poll returns after its order read holds the real orders if it had a real and a tracked order in hand when it resumed, all of its list otherwise, and no order if the read failed |
| `OrderConvergence.RunTracks` | demo-harness-project/backend/src/demo_harness/offer_projection.py:203-219 | Along any run a synthetic order stops being tracked exactly when a delete of it returns successfully, to whichever poll |
| `OrderConvergence.CanonicalExactly` | demo-harness-project/README.md:160-164 | The promise that the order section always shows the canonical order, for every poll that gets past its order read, in any interleaving: with a real order of the requisition in the table it returns exactly the real orders if and only if the read succeeded and no delete of a synthetic order it listed returned, to any poll, between the scan and the resumption |
| `OrderConvergence.SyntheticShownExactlyWhenDeletedMeanwhile` | demo-harness-project/backend/src/demo_harness/offer_projection.py:203-222 | A poll whose read succeeded returns a synthetic order beside a real one if and only if its scan listed both and the delete of a listed synthetic one returned, to some poll, between the scan and the resumption |
| `StaleScans.FailedReadHidesRealOrder` | demo-harness-project/backend/src/demo_harness/offer_projection.py:200-201 | Counterexample run from the initial state: a poll whose order read fails returns no order although a real one of its requisition is in the table |
| `OrderConvergence.PollShowsRealOrders` | demo-harness-project/backend/src/demo_harness/offer_projection.py:197-222 | If none did, a poll that listed a real order returns exactly the real orders of its requisition that were in the table when it scanned, whatever else runs |
| `OrderConvergence.PollClearsSyntheticForGood` | demo-harness-project/backend/src/demo_harness/offer_projection.py:203-222 | In any interleaving, once a poll that listed a real order is done and its own deletes succeeded, each synthetic order it listed is out of the table, and after any further run no synthetic order of that order's negotiation is in the table |
| `OrderConvergence.RunKeepsGone` | demo-harness-project/backend/src/demo_harness/offer_projection.py:205-219 | A synthetic order that is out of the table and not on its way there never comes back |
| `OrderConvergence.FailedDeleteIsRetried` | demo-harness-project/backend/src/demo_harness/offer_projection.py:205-219 | A synthetic order in the table (say, after a failed delete) is tracked, and a poll that lists it with a real one sets out to delete it, whatever runs between scan and resumption, unless a delete of it has returned by then |
| `OrderConvergence.NeverMintedAgain` | demo-harness-project/backend/src/demo_harness/offer_projection.py:453-474 | Once a negotiation has had its synthetic order no later step, overlapping or not, mints another for it |
| `StaleScans.StaleScanShowsDeletedOrder` | demo-harness-project/backend/src/demo_harness/offer_projection.py:203-222 | Of two overlapping polls holding the same scan, the second returns an already deleted synthetic order next to the real one, because the first has stopped tracking it |
| `StaleScans.DeletedOrderIsShown` | demo-harness-project/backend/src/demo_harness/offer_projection.py:203-222 | Counterexample run from the initial state (an order is minted, its put lands, a real one arrives, two polls scan): a poll returns a synthetic order that is no longer in the table beside the real one |
| `DerivedInvitations.RepeatsExactlyWhenForgotten` | demo-harness-project/README.md:168-171 | The promise of no duplicates, for auto-derived rfq_sent (offer_projection.py lines 295-330), over whole runs: they are free of duplicates if and only if no poll derives an invitation that an earlier poll derived and that its own previous snapshot does not list |
| `DerivedInvitations.RepeatsExactlyWhenTwiceUnlisted` | demo-harness-project/backend/src/demo_harness/offer_projection.py:314-316 | Over any run whatever, including stored invitations with reserved ids: the ids announced twice are exactly those that two polls derive while neither's own previous snapshot lists them |
| `DerivedInvitations.RfqSentRepeatsExactly` | demo-harness-project/backend/src/demo_harness/offer_projection.py:226-330 | Stored and derived invitations together, as a client sees them: over any run no rfq_sent id of a negotiation repeats if and only if no poll derives an invitation that an earlier poll derived and that its own previous snapshot does not list |
| `DerivedSerial.SerialPollsNeverRepeat` | demo-harness-project/backend/src/demo_harness/offer_projection.py:295-330 | On runs whose polls of the negotiation do not overlap, whose bidding suppliers stay and whose stored invitations do not vanish, no derived invitation is announced twice; other negotiations are free |
| `DerivedInvitations.OverlappingPollsRepeat` | demo-harness-project/backend/src/demo_harness/offer_projection.py:295-330 | Counterexample run from the initial state: two overlapping polls both announce the same auto-derived invitation |
| `DerivedInvitations.DiffSends` | demo-harness-project/backend/src/demo_harness/offer_projection.py:295-330 | One diff announces exactly the derived invitations its previous snapshot does not list, and no other derived one |
| `DerivedInvitations.StepSends` | demo-harness-project/backend/src/demo_harness/offer_projection.py:161-558 | No step but a poll's diff announces a derived invitation |
| `DerivedInvitations.AutoInvitationsDistinct` | demo-harness-project/backend/src/demo_harness/offer_projection.py:298-311 | Derived invitations are one per supplier, so their ids differ within a poll |
| `OfferProjectionService.OfferProjection.Subscribe` | demo-harness-project/backend/src/demo_harness/offer_projection.py:93-100 | Registers an empty queue in its scope; state, guards and log are unchanged |
| `OfferProjectionService.OfferProjection.Unsubscribe` | demo-harness-project/backend/src/demo_harness/offer_projection.py:103-108 | Removes the queue from the list its scope names and changes nothing else |
| `OfferProjectionService.OfferProjection.Publish` | demo-harness-project/backend/src/demo_harness/offer_projection.py:111-119 | Appends the event to every target queue and the log, as the bus specification does |
| `OfferProjectionService.OfferProjection.PublishInvitations` | demo-harness-project/backend/src/demo_harness/offer_projection.py:226-254 | The loop's new guard set, queues and log are those of the specification the at-most-once and exactness lemmas are about |
| `OfferProjectionService.OfferProjection.PublishFeedback` | demo-harness-project/backend/src/demo_harness/offer_projection.py:256-275 | Likewise for auction round feedback |
| `OfferProjectionService.OfferProjection.NameBids` | demo-harness-project/backend/src/demo_harness/offer_projection.py:292-295 | The in-place rewrite gives every bid a supplier name: its own, the roster's, or the supplier id |
| `OfferProjectionService.OfferProjection.DeriveInvitations` | demo-harness-project/backend/src/demo_harness/offer_projection.py:298-330 | The seen-set loop derives one invitation per supplier in bid order and announces those the previous snapshot does not list |
| `OfferProjectionService.OfferProjection.PublishClassification` | demo-harness-project/backend/src/demo_harness/offer_projection.py:356-380 | Publishes the classification under its guard, as specified |
| `OfferProjectionService.OfferProjection.PublishOffers` | demo-harness-project/backend/src/demo_harness/offer_projection.py:385-415 | For some visiting order of the new bid ids, the guard, queues and log are those of the specification |
| `OfferProjectionService.OfferProjection.PublishAwards` | demo-harness-project/backend/src/demo_harness/offer_projection.py:417-441 | The award loop's effect is the specification's |
| `OfferProjectionService.OfferProjection.PublishOrders` | demo-harness-project/backend/src/demo_harness/offer_projection.py:509-533 | The order loop's effect is the specification's |
| `OfferProjectionService.OfferProjection.PublishStatus` | demo-harness-project/backend/src/demo_harness/offer_projection.py:536-555 | Records and announces a changed status, as specified |
| `OfferProjectionService.OfferProjection.SaveSnapshot` | demo-harness-project/backend/src/demo_harness/offer_projection.py:332-350 | Builds the snapshot from the poll's rows and saves it for the negotiation |
| `OfferProjectionService.OfferProjection.Diff` | demo-harness-project/backend/src/demo_harness/offer_projection.py:223-441 | The whole uninterrupted segment refines the specification segment and builds the snapshot that is saved |
| `OfferProjectionService.OfferProjection.Finish` | demo-harness-project/backend/src/demo_harness/offer_projection.py:509-557 | The tail segment refines the specification segment |
| `OfferProjectionService.OfferProjection.AfterOrders` | demo-harness-project/backend/src/demo_harness/offer_projection.py:443-557 | From the diff on: finishes, or claims a synthetic order and suspends on its put, exactly as the step machine does |
| `OfferProjectionService.OfferProjection.ResumeFetch` | demo-harness-project/backend/src/demo_harness/offer_projection.py:161-195 | Resuming after the first read moves the shared state and the poll as the machine's step |
| `OfferProjectionService.OfferProjection.ResumeOrders` | demo-harness-project/backend/src/demo_harness/offer_projection.py:190-222 | Resuming after the order read: split, first delete, or proceed, as the machine's step |
| `OfferProjectionService.OfferProjection.ResumeDelete` | demo-harness-project/backend/src/demo_harness/offer_projection.py:205-222 | Resuming after a delete: stop tracking on success only, next delete or proceed, as the machine's step |
| `OfferProjectionService.OfferProjection.ResumePut` | demo-harness-project/backend/src/demo_harness/offer_projection.py:477-557 | Resuming after the put, whether it succeeded or not, as the machine's step |
| `PollMachine.StepMoves` | demo-harness-project/backend/src/demo_harness/offer_projection.py:161-558 | A resuming poll moves itself only; no table changes at that moment |
| `Requisitions.ActRises` | test_tenant_app/backend/src/test_tenant_app/clients/master_data_client.py:45-85 | Every poll or permitted decision at a later time keeps or raises the rank, and a change of status raises it strictly |
| `Requisitions.LifecycleIsRanked` | test_tenant_app/backend/src/test_tenant_app/clients/master_data_client.py:343-412 | Over any legal run: status changes are bounded by the rank gained and by 7, at most one re-run happens, CANCELLED is absorbing |
| `Requisitions.AdvanceIsScheduleIndependent` | test_tenant_app/backend/src/test_tenant_app/clients/master_data_client.py:45-85 | Reading at any non-decreasing times gives the same row (status, graph nodes, approval context) as one read at the last time |
| `RouteOutcomes.FirstPassByTheClock` | test_tenant_app/backend/src/test_tenant_app/clients/master_data_client.py:45-85 | From creation on, whatever else is asked of the store: reads and listings show NEW, ACTIVE, IN_NEGOTIATION and pending by 5, 10 and 20 seconds since creation, with the graph nodes and approval context of each; approve, reject and send-back are accepted from 20 seconds on and not before |
| `RouteOutcomes.SecondPassByTheClock` | test_tenant_app/backend/src/test_tenant_app/clients/master_data_client.py:383-400 | After the first send-back: back in negotiation for 5 seconds, then pending again with its context; a further send-back leaves it for attention |
| `RouteOutcomes.BothPassesByTheClock` | test_tenant_app/backend/src/test_tenant_app/clients/master_data_client.py:383-400 | The two passes in one run, from creation over the accepted send-back to the next decision, accepted if and only if 5 seconds have passed |
| `RouteOutcomes.DecisionsAre` | test_tenant_app/backend/src/test_tenant_app/api/requisitions.py:88-147 | What each decision makes of a stored requisition by its advanced status: approval completes it and appends an order with the stated ids, supplier, lines and total; a refused decision changes nothing; cancelling takes a confirmation in ACTIVE and IN_NEGOTIATION only |
| `RouteOutcomes.MatchingExactly` | test_tenant_app/backend/src/test_tenant_app/clients/master_data_client.py:301-314 | A listing is, in insertion order, exactly the rows whose key starts with the tenant's prefix and whose status is the one asked for |
| `Requisitions.LineItemsTotal` | test_tenant_app/backend/src/test_tenant_app/clients/master_data_client.py:225-243 | The line totals of the created items sum to price times quantity over the request, an absent price counting 0 and an absent quantity 1 |
| `Requisitions.InTenantExactly` | test_tenant_app/backend/src/test_tenant_app/clients/master_data_client.py:301-306 | The key-prefix test of a listing picks exactly the tenant's own rows as long as tenant ids hold no colon |
| `Requisitions.RoutesFollowLifecycle` | test_tenant_app/backend/src/test_tenant_app/api/requisitions.py:62-147 | What a route does to a stored requisition is a legal sequence of lifecycle actions, and to any other requisition of the same call a read or nothing |
| `Requisitions.HandleOrders` | test_tenant_app/backend/src/test_tenant_app/api/requisitions.py:88-99 | A route appends a purchase order exactly when it is an accepted approval, and only for that requisition |
| `Requisitions.OneOrderPerApproval` | test_tenant_app/backend/src/test_tenant_app/clients/master_data_client.py:343-354 | Over every legal sequence of route calls: as many orders as accepted approvals, at most one; its lines are the requisition's, its total is price times quantity over the request, and the budget limit unless a non-zero one was given |
| `Requisitions.OrdersFromScratch` | test_tenant_app/backend/src/test_tenant_app/clients/master_data_client.py:88-110 | The same from an empty store |
| `Requisitions.RoutesChangeStatusAtMostSeven` | test_tenant_app/backend/src/test_tenant_app/api/requisitions.py:88-147 | Seen from the routes: over any run a stored requisition changes status at most 7 times, and never leaves CANCELLED |
| `Requisitions.HandleSound` | test_tenant_app/backend/src/test_tenant_app/api/requisitions.py:22-147 | Every route keeps each stored row consistent with its creation arguments and the clock |
| `Requisitions.CompletedCanBeCancelled` | test_tenant_app/backend/src/test_tenant_app/api/requisitions.py:131-147 | The cancel route accepts a completed requisition, confirmed or not; it ends as CANCELLED and the orders stay |
| `Requisitions.CancelledAfterApproval` | test_tenant_app/backend/src/test_tenant_app/api/requisitions.py:88-147 | So a requisition approved and then cancelled ends as CANCELLED with its one purchase order |
| `StubStoreService.StubStore.BuildLines` | test_tenant_app/backend/src/test_tenant_app/clients/master_data_client.py:233-243 | The item loop builds one line per requested item, in order, with price 0 and quantity 1 where the request gives none |
| `StubStoreService.StubStore.CreatePr` | test_tenant_app/backend/src/test_tenant_app/clients/master_data_client.py:212-255 | Stores a NEW requisition under its key, whose line totals sum to the estimated cost, which is also the budget limit when none is given |
| `StubStoreService.StubStore.GetPr` | test_tenant_app/backend/src/test_tenant_app/clients/master_data_client.py:267-281 | Advances the stored row in place and answers it, else the packaged fixture, else nothing |
| `StubStoreService.StubStore.ListPrs` | test_tenant_app/backend/src/test_tenant_app/clients/master_data_client.py:301-314 | Advances every row whose key has the tenant's prefix, and answers in insertion order those whose advanced status matches the filter |
| `StubStoreService.StubStore.ApprovePr` | test_tenant_app/backend/src/test_tenant_app/clients/master_data_client.py:343-354 | Completes the stored row and appends its order; an unknown key changes nothing |
| `StubStoreService.StubStore.MarkCancelled` | test_tenant_app/backend/src/test_tenant_app/clients/master_data_client.py:361-376 | Rejecting and cancelling (lines 405-412) have the same effect on the stored row |
| `StubStoreService.StubStore.CycleBackPr` | test_tenant_app/backend/src/test_tenant_app/clients/master_data_client.py:383-400 | Re-runs once, then hands off to REQUIRES_ATTENTION, and answers the new status (REQUIRES_ATTENTION for an unknown key) |
| `StubStoreService.StubStore.ApproveRoute` | test_tenant_app/backend/src/test_tenant_app/api/requisitions.py:88-99 | 404, 409 or approval exactly by presence and advanced status; only an accepted approval of a stored row adds an order |
| `StubStoreService.StubStore.RejectRoute` | test_tenant_app/backend/src/test_tenant_app/api/requisitions.py:102-114 | 404, 409 or cancellation exactly by presence and advanced status |
| `StubStoreService.StubStore.CycleBackRoute` | test_tenant_app/backend/src/test_tenant_app/api/requisitions.py:117-128 | 404, 409 or cycle-back exactly by presence and advanced status |
| `StubStoreService.StubStore.CancelRoute` | test_tenant_app/backend/src/test_tenant_app/api/requisitions.py:131-147 | 404, confirmation demand or cancellation exactly by presence, advanced status and the confirm flag |
| `NegotiationReport.GroupItems` | test_tenant_app/backend/src/test_tenant_app/negotiation_report.py:188-195 | The dictionary-and-list loop yields the categories in first-appearance order and, per category, the order-preserving filter of the items |
| `NegotiationReport.BuildNegotiations` | test_tenant_app/backend/src/test_tenant_app/negotiation_report.py:183-234 | One negotiation per category, in that order |
| `NegotiationReport.CategoriesOnce` | test_tenant_app/backend/src/test_tenant_app/negotiation_report.py:188-195 | Each category of a line item occurs exactly once, and no other occurs |
| `NegotiationReport.FirstAppearanceOrder` | test_tenant_app/backend/src/test_tenant_app/negotiation_report.py:188-195 | An earlier category has a line item before any line item of a later one |
| `NegotiationReport.GroupsPartition` | test_tenant_app/backend/src/test_tenant_app/negotiation_report.py:188-195 | The groups together are a permutation of the line items and their totals add up to the items' total |
| `NegotiationReport.ReportFromItems` | test_tenant_app/backend/src/test_tenant_app/negotiation_report.py:188-234 | One negotiation for each category of a line item and no other, with exactly its items in order (uncatalogued ones are uncategorized), and its opening quote 3, 10, 6 or 4 percent over the total by quadrant |
| `NegotiationReport.ReportReconciles` | test_tenant_app/backend/src/test_tenant_app/negotiation_report.py:692-703 | For an order built from the requisition, category totals sum to the order total and category savings to the Total row's savings |
| `NegotiationReport.CategorySavings` | test_tenant_app/backend/src/test_tenant_app/negotiation_report.py:210-213 | With a positive total: final < counter < opening, counter the exact midpoint, saved fraction m / (1 + m) for markup m |
| `NegotiationReport.NothingSavedOnNothing` | test_tenant_app/backend/src/test_tenant_app/negotiation_report.py:157-159 | A category without cost has no quotes, no savings and a savings fraction of zero |
| `NegotiationReport.AggregateSavingsBounded` | test_tenant_app/backend/src/test_tenant_app/negotiation_report.py:73-79 | Over any number of categories with positive totals, the Total row's savings fraction lies between 3/103 and 1/11 |
| `ResetDemo.ResetIsCompleteAndFramed` | demo-harness-project/backend/src/demo_harness/reset_demo.py:132-180 | No runtime row of the tenant is left, counting communications keyed only by a negotiation id captured at the start; the cache is empty; every other row and table is unchanged |
| `ResetDemo.ResetIsRowByRow` | demo-harness-project/backend/src/demo_harness/reset_demo.py:132-180 | Row by row, from the keys alone: a row is left, unchanged, if and only if its key is not the tenant's (hash equal to the tenant id; pk the tenant id, a hash sign and anything; for communications, pk starting with the tenant id or being a negotiation id the tenant had), and each count is of the rows lost |
| `ResetDemo.ResetIsIdempotent` | demo-harness-project/backend/src/demo_harness/reset_demo.py:132-180 | A second reset deletes nothing and reports all zeros |
| `ResetDemo.LateCaptureMissesCommunications` | demo-harness-project/backend/src/demo_harness/reset_demo.py:138-140 | Why the ids are captured first: read after the negotiations were deleted they would leave a communication keyed by id alone in place |
| `ResetDemo.Collect` | demo-harness-project/backend/src/demo_harness/reset_demo.py:124-128 | The loop collects exactly the keys that match, each once |
| `ResetDemo.Table.DeleteBatch` | demo-harness-project/backend/src/demo_harness/reset_demo.py:57-68 | Chunks of 1 to 25 keys concatenate to the key list, exactly those keys are gone, and the count is the list's length |
| `ResetDemo.Table.DeleteTenantIdHash` | demo-harness-project/backend/src/demo_harness/reset_demo.py:74-83 | Removes exactly the rows hashed by the tenant and counts them |
| `ResetDemo.Table.DeleteTenantPkPrefix` | demo-harness-project/backend/src/demo_harness/reset_demo.py:86-95 | Leaves exactly the rows whose pk is not the tenant id, a hash sign and something, and counts the others |
| `ResetDemo.Table.DeleteCommunications` | demo-harness-project/backend/src/demo_harness/reset_demo.py:121-129 | Removes exactly the communications keyed by a captured negotiation id or the tenant and counts them |
| `ResetDemo.Table.Clear` | demo-harness-project/backend/src/demo_harness/reset_demo.py:98-103 | Empties the table and counts its rows |
| `ResetDemo.Database.NegotiationIdsNow` | demo-harness-project/backend/src/demo_harness/reset_demo.py:109-118 | The loop over the queried keys collects an id if and only if it is non-empty and the tenant has a negotiation row with it |
| `ResetDemo.Database.DeleteByTenantId` | demo-harness-project/backend/src/demo_harness/reset_demo.py:143-158 | The four tables keyed by tenant lose exactly its rows |
| `ResetDemo.Database.DeleteByPrefix` | demo-harness-project/backend/src/demo_harness/reset_demo.py:160-168 | The three tables keyed by prefix lose exactly its rows |
| `ResetDemo.Database.ResetTenant` | demo-harness-project/backend/src/demo_harness/reset_demo.py:132-180 | The row-by-row statement, for the nine deletions in order: which rows are left, unchanged, is decided by the keys as they were, and each count is of the rows its table lost |
| `SfnGraph.EnteredAndExited` | demo-harness-project/backend/src/demo_harness/observer.py:267-276 | The fold collects exactly the named states entered, each once, and exited |
| `SfnGraph.ExecutionGraph` | demo-harness-project/backend/src/demo_harness/observer.py:244-288 | One line per canonical state: pending, succeeded, running or failed by membership in the history of all pages |
| `SfnGraph.GraphFromEvents` | demo-harness-project/backend/src/demo_harness/observer.py:254-288 | From the events: the eight canonical states in order, each pending unless some event of a kind ending in StateEntered names it, succeeded if some event of a kind ending in StateExited also does, else running or, once the execution is over, failed |
| `SfnGraph.PagingAndOrderDoNotMatter` | demo-harness-project/backend/src/demo_harness/observer.py:254-276 | The graph is the same for every split into pages and every reordering of the events |
| `SfnGraph.ProgressNeverRecedes` | demo-harness-project/backend/src/demo_harness/observer.py:278-288 | While the execution is running, a longer history moves no state back and shows none as failed |
| `SupplierRfqs.CollectComms` | demo-harness-project/backend/src/demo_harness/observer.py:643-655 | The dictionary filled from the communications has one entry per negotiation named, with its invitations and feedback in scan order, keys in first-appearance order |
| `SupplierRfqs.LastBids` | demo-harness-project/backend/src/demo_harness/observer.py:639-641 | The comprehension keeps, per negotiation, the last bid of the supplier |
| `SupplierRfqs.AddBidders` | demo-harness-project/backend/src/demo_harness/observer.py:657-662 | A negotiation with a bid and no invitation gets an empty entry, after the others |
| `SupplierRfqs.GetSupplierRfqs` | demo-harness-project/backend/src/demo_harness/observer.py:624-693 | The route's answer is the joined and sorted list the lemmas below describe |
| `SupplierRfqs.RfqJoin` | demo-harness-project/backend/src/demo_harness/observer.py:631-693 | The answer is latest first, holds each negotiation once, lists exactly the negotiations the supplier was written to about or bid on, and each entry is that negotiation's |
| `SupplierRfqs.RfqAnswer` | demo-harness-project/backend/src/demo_harness/observer.py:631-693 | From the rows of the scan: each entry holds exactly the supplier's invitations and feedback of its negotiation, by kind and in scan order, its last bid and the negotiation's row; a negotiation is listed, once, if and only if a communication or a bid of the supplier names it; latest number stamped first |
| `SupplierRfqs.RfqJoinKeepsEveryRow` | demo-harness-project/backend/src/demo_harness/observer.py:643-655 | The returned list holds every invitation, and every feedback row, of the supplier that names a negotiation exactly once, and no others |
| `SupplierRfqs.SortIsStable` | demo-harness-project/backend/src/demo_harness/observer.py:676-691 | Sorting by latest timestamp in reverse is a permutation, non-increasing, and keeps the order of entries with equal timestamps |
| `SupplierRfqs.ResponseIsLast` | demo-harness-project/backend/src/demo_harness/observer.py:639-641 | The response is a bid of the supplier for that negotiation and no later one is; it is absent exactly when there is none |

## Left out

- EmissionIsExact: leaves aside invitations stored under an id that starts with `auto-`; PreviousSnapshotIsRedundant gives the exact condition for those.
- RepeatsExactlyWhenForgotten: the stored invitations of the run do not use ids that start with `auto-`, the form reserved for derived ones; RepeatsExactlyWhenTwiceUnlisted needs no such condition.
- SerialPollsNeverRepeat: one direction; overlapping polls need not repeat anything, and RepeatsExactlyWhenForgotten has both.
- PollClearsSyntheticForGood: is about the synthetic orders the scan listed; one whose put is still on its way is left for a later poll.
- StreamHasNoGap: tables grow. Real orders have a result of their own (RealOrderMissedExactly), and so has the status (ClientStatusIsLastPublished); synthetic orders, which may be deleted while a client connects, and classifications have none.
- RealOrderMissedExactly: real orders keep their requisition and stay in the table, and so do negotiations.
- RfqSentRepeatsExactly: the stored invitations of the run do not use ids that start with `auto-`.
- RealOrdersSurvive: the environment may still remove real orders, since other systems own them.
- OneOrderPerApproval: routes are atomic; two approvals of one requisition racing in the server's thread pool are not modelled.
- RfqJoin: the concurrent lookups of negotiation rows are one map; a read that fails there is not modelled.
- GetSupplierRfqs: the table's filter on the supplier is a function of the scan, and sorting is a stable insertion rather than the library's algorithm.
- ExecutionGraph: paging tokens are the list of pages; a call that fails is not modelled.
- DeleteBatch: a batch request succeeds as a whole; unprocessed items and throttling are not modelled.
- Subscribe: queues are numbered entries of a map, not objects, and are unbounded, as the code creates them; a stream's reading from its queue is left out, so a queue is everything ever put on it.
- The event log, the mark that an invitation was derived, the statuses finished with, the minted ids and the real order ids are history; the code keeps none of them.
- `poll_loop` and the snapshot route: a poll may start for any negotiation at any moment, which covers both. The supplier-name cache is a parameter of the resuming step.
- `approve_negotiation`'s `asyncio.run` in a worker thread (demo-harness-project/backend/src/demo_harness/observer.py:164): one event loop is assumed.
- Snapshot fields no decision reads: approval_block_reason, total_cost_usd, correlation id, updated_at, and payload fields of bids and awards that are only copied into events.
- Process restart, which loses the guard and synthetic sets.
- Requisition fields no rule reads (names, delivery, deadline, updated_at), the correlation id in `graph_nodes` of a new requisition, and `_set_pr_age`, which can move the clock back. The store's keys are pairs; two pairs that spell the same `tenant:requisition` string would need a requisition id with a colon, which a generated id does not have.
- Stub awards: in stub mode the award behind an order is the packaged one, so its supplier and savings are constants here. The packaged fixture requisition is only what a read answers for its id.
- The report's suppliers, strategy texts, model-call and table-operation counts, and PDF layout; rounding of floats everywhere.
- Line items of received orders, contact and trace fields of the order normaliser; the negotiation status mapping, which is a lookup table.
- Live-mode branches, boto3 clients, authentication, tracing, health checks, seeding and the React frontend.
