# Conditional-write commerce store: model and proofs

The store keeps stock, reservations, orders, fiscal claims, migration requests and subscription projections in
key-value tables. A call reads a few records one at a time, builds a plan from them, and sends the plan as one
transaction whose per-record conditions are judged on whatever the tables hold by then. Replies can be lost. This
project models that and proves what survives every interleaving.

## How it is modelled

A *world* is the tables together with every record version that was ever in them. An *operation* carries the records it
had read, any of which may be out of date; it commits when those versions were once stored and the conditions of its
plan hold now. A *run* is any sequence of attempted operations from empty tables, so all guarantees over runs hold for
every interleaving of calls, retries and races. Digests are modelled by what they are taken over.

Beside the runs stand the calls themselves: classes whose methods make the separate reads, in the order of the source,
with any number of other callers' transactions in between, and whose one transaction may be applied, refused, or left
without an answer. Their contracts speak of a ghost log of transactions: what this call committed, what its answer says
of the stored receipt, and that a refusal which nobody else's transaction explains could not have been anything else.

| files | contents |
|---|---|
| Basics, Ordering, Decimals, SortKeys | results, string order, numerals, stored keys |
| Inventory, Orders, Records, Plans | stock arithmetic, order lines, the records, the plan of every operation |
| Ledger, Protocol, Steps, Parts, Operations, Runs | the invariant over both tables, one operation at a time, then whole runs |
| Guarantees, HeldOrders, Idempotency, Progress, ReceiptTruth, Movements, Provenance | what holds of every run |
| Refusals, Exactness, FiscalWindows | exactly when an operation can be committed, and what it leaves |
| Actions, Backends, Calls, Sending, Allocating, Stores, FiscalStores | the store's calls, imperative |
| DueKeys, DueLists, Reconcilers | due markers, their index and the reconciler |
| MigrationRecords, -Steps, -Runs, -Guarantees, -Histories, -Clocks, -Exceptions, -Approvals, -Stores | the migration request state machine |
| Catalogs, Subscriptions, RecoveryKeys, Attributes | paging, projections, recovery keys, the attribute codec |

The operations table has two other writers. Catalog mutations keep their receipts under the same idempotency keys; a run
may contain any of them, and they only use up keys: a receipt of one kind never answers a call of another. Subscription
events keep their inbox records under the same event ids as payments and refunds, which does matter; see below.

## What the proofs found

- Migration requests: three kinds of write leave a record that the next read refuses, and such a record is stuck for
  good: a command recorded over a preview that goes on, a progress report that skips the preview result, and a report
  of canceling what was never approved. `MigrationGuarantees.ReadableExactly` lists all that strand;
  `MigrationClocks.ReadableUnderForwardClock` says that under a server clock that moves forward, and with controls that
  `prepare_control` let through, it is those three and the cap on storage revisions. `MigrationExceptions` reaches every
  one from empty tables, and also the others: a clock that runs backwards at an event or at an approval, and a pause
  recorded without `prepare_control`.
- Approving an execution: after a write that did not succeed, `_approval_replay` asks the reread request for the time of
  its approval even when there is none. `MigrationApprovals.UnplannedUnlessClosed` says exactly when the caller gets this
  undeclared exception, where a conflict or an unknown outcome is intended: if and only if since the first read nobody
  approved the request and nobody left it unreadable. No race is needed: a write that is lost on its way does it with
  nobody else about, and so does one that was refused because of a report on some item (`UnplannedIsReached`). A
  conflict after a sent write therefore means that the request was approved by someone else, or cannot be read.
- Event ids: a subscription event that comes first with an id shuts out the payment or refund event of the same id for
  good (`Sending.SubscriptionShutsOut`), although its idempotency key is fresh. `Refusals.NoStrandedStock` has the exact
  condition under which an undisturbed end of a held reservation goes through.
- Due markers: the index order is the order of time exactly up to ten to the twentieth (`DueKeys.RightBelowExactly`);
  `DueKeys.RightExactly` decides any two times, and `PastTheWidth` shows a failure.
- Lost replies: subscription events, failed fiscal claims and moves of a fiscal request let the backend's own exception
  through instead of looking for what was written.
- The reread in `_rotate_fiscal_access_on_checkout_replay` checks the access record again; that check cannot fail.

## Model

| member | source | states |
|---|---|---|
| Inventory.HoldThenFinish | src/domain/inventory.py:95-119 | A hold is undone exactly by a release, a commit is a release followed by a sale, and what is held cannot be held again |
| Orders.AggregatesValid | src/domain/orders.py:59-80 | The aggregation of a valid order passes the checks of a stored reservation and never exceeds the line cap |
| Orders.ChargedByUnit | src/domain/orders.py:81-88 | An order costs the sum of the prices of its units, and asks a stock for as many units as it takes of it |
| Allocating.Requirements | src/storage.py:270-279 | The dictionary holds exactly the tracked stocks of the lines, each with its summed units and its line ids |
| Allocating.Allocate | src/storage.py:270-300 | One allocation per tracked stock, in stock order, with summed units and sorted line ids |
| Refusals.AggregatesUnique | src/storage.py:281-300 | The allocations of an order are determined by its lines |
| HeldOrders.HeldIsOrdered | src/storage.py:303-451 | In every reachable state, what a reservation holds is what its order's lines ask for, the order's amount is their total, both expire 35 minutes after they were made, and the first reconciliation is due five minutes later |
| Guarantees.StockLedger | src/storage.py:142-221 | In every reachable state a stock's reserved count is the sum over live reservations, its three counts are the sums of its movement log, and 0 <= reserved <= on hand |
| Guarantees.JointState | src/storage.py:1298-1429 | Reservation, order, the one due marker at its due key and the fiscal access agree on where a checkout stands, both ways; a commit was for payment and a release was not, noted alike in both records |
| Guarantees.NothingDangles | src/storage.py:376-450 | No order, marker, payment binding, access, refund or movement stands without the record it belongs to |
| Guarantees.TerminalIsFinal | src/storage.py:1242-1296 | A committed or released reservation is never written again |
| Guarantees.ReservationKeepsIdentity | src/storage.py:1104-1201 | What was reserved, for whom and when never changes, and deferrals only move forward |
| Guarantees.MarkerNeverReturns | src/storage.py:1136-1198 | A due marker that is gone never comes back: marker keys are not reused |
| Guarantees.FiscalSingleUse | src/fiscal_storage.py:167-286 | At most one fiscal request per order, under a consumed access that names it, in at most five attempts |
| Guarantees.ConsumedHasRequest | src/fiscal_storage.py:214-286 | A consumed access always has its request: no claim is spent without one |
| Guarantees.AttemptsBounded | src/fiscal_storage.py:288-315 | Attempts never exceed five, whatever races |
| Guarantees.ProofFrozen | src/storage.py:453-506 | The proof is frozen once the access leaves pending payment, and a consumed or ineligible access never changes |
| Guarantees.RefundsAreCovered | src/storage.py:664-672 | In every reachable state every recorded refund gives back more than nothing and at most what its order cost, in its currency |
| Guarantees.MessagesAreWanted | src/storage.py:1568-1615 | Every notification stands beside its event and goes where its order wants it, naming what the order costs |
| Movements.MovementsAreTrue | src/storage.py:1671-1714 | In every reachable state each logged movement is an adjustment, or one allocation of a reservation being held when it was made, sold when it was committed, or given back when it was released |
| Provenance.LastWritten | src/storage.py:1784-1805 | Whatever is stored was written by a committed operation, whose time it notes as the time at which it was made, ended, refunded, deferred, updated or recorded |
| FiscalWindows.EligibleSince | src/storage.py:1454-1459 | In every run an eligible or consumed access expires exactly its window after the time that the operation which opened it noted in the inbox |
| FiscalWindows.ClosedUntilPaid | src/storage.py:360-378 | Until a payment opens it, an access has no attempts and carries the end of a window that starts with the first reconciliation |
| FiscalWindows.RedeemableExactly | src/fiscal_storage.py:470-477 | A claim can be redeemed exactly while its access is eligible, of its proof, with fewer than five attempts, before it expires, and its key is new |
| FiscalWindows.WindowIsOpen | src/storage.py:1454-1459 | Once a payment or an overtaking refund at `now` opened the access, a new claim with its proof can be redeemed at every time before now + window and at none from then on |
| FiscalWindows.PaidThenClaimed | src/storage.py:1413-1429 | The same from any reachable state, after an undisturbed success event |
| FiscalWindows.RefundedThenClaimed | src/storage.py:742-884 | The same from any reachable state, after an undisturbed refund that overtakes its payment |
| Operations.AdjustKeeps | src/storage.py:142-221 | A stock adjustment planned from any stale stock keeps the joint invariant |
| Operations.ReserveKeeps | src/storage.py:303-451 | A checkout planned from any stale stocks keeps the joint invariant |
| Operations.FinishKeeps | src/storage.py:1298-1429 | A commit or release planned from any stale records keeps the joint invariant |
| Operations.AcknowledgeKeeps | src/storage.py:1242-1296 | A repeated payment event keeps the joint invariant |
| Operations.RefundPaidKeeps | src/storage.py:660-740 | A refund of a paid order keeps the joint invariant |
| Operations.RefundPendingKeeps | src/storage.py:742-884 | A refund that overtakes its payment keeps the joint invariant |
| Operations.DeferKeeps | src/storage.py:1104-1201 | A deferral keeps the joint invariant |
| Operations.RedeemKeeps | src/fiscal_storage.py:214-286 | A redemption keeps the joint invariant |
| Runs.RunKeeps | src/storage.py:1784-1805 | After any run the tables satisfy the joint invariant and every earlier version of a record only evolved |
| Runs.RunAdvances | src/storage.py:1784-1805 | Between any two moments nothing but due markers disappears and every record moves only as its kind allows |
| Idempotency.TicketInPlan | src/storage.py:2191-2207 | Every operation of the commerce store, and every catalog mutation, commits together with its receipt, on condition that there is none |
| Idempotency.ReceiptAppears | src/storage.py:1488-1495 | The receipt appears exactly with the commit |
| Idempotency.WrittenOnce | src/storage.py:1520-1615 | Receipts, inbox records, bindings, refunds and movements are written once and then stay as they are |
| Idempotency.ExactlyOnce | src/storage.py:1636-1669 | Over a whole run at most one operation commits under an idempotency key |
| ReceiptTruth.ReceiptsAreTrue | src/storage.py:2191-2224 | In every reachable state every receipt tells the truth, field by field, about the reservation, order, refund or stock it is about |
| ReceiptTruth.EndedAsTold | src/storage.py:2450-2464 | Whoever is told that a reservation was ended finds it and its order ended, for that reason and at the told time, and will ever after |
| ReceiptTruth.OpenedAsTold | src/storage.py:303-320 | Whoever is told of a checkout finds its reservation and order holding what its lines ask for; the told expiry is that of both, 35 minutes after their creation, and the told reconciliation five minutes later |
| ReceiptTruth.OutcomeAsTold | src/storage.py:556-618 | Whoever is told of a payment outcome finds the named reservation, order and attempt ended accordingly: paid, or not |
| ReceiptTruth.RefundedAsTold | src/storage.py:620-740 | Whoever is told of a refund finds its order refunded by it, within its amount and in its currency |
| Idempotency.RefundMovesOrder | src/storage.py:660-740 | A refund finds its order paid or pending and leaves it refunded |
| Idempotency.RefundedOnce | src/storage.py:620-740 | No order is refunded twice, under whatever event or refund ids |
| Progress.EnoughReserved | src/domain/inventory.py:102-119 | A stock's reserved count covers every live reservation's share, so ending one never runs short |
| Refusals.NoStrandedStock | src/storage.py:1298-1429 | In every reachable state an undisturbed commit, release or payment event for a held reservation goes through, and ends it as asked, if and only if its key and its event id are unused and its event is bound to that reservation |
| Sending.SubscriptionShutsOut | src/subscription_storage.py:446-466 | A subscription event that comes first with an id is committed, and no payment or refund event of that id ever is |
| Stores.UndisturbedIsNotRefused | src/storage.py:1203-1240 | With nobody else about, ending a held reservation under an unused key and event id is never refused |
| Actions.ReserveList | src/storage.py:303-451 | The action list of a checkout is its plan, aims at distinct records and has at most 2k+6 actions |
| Actions.FinishList | src/storage.py:1298-1429 | The action list of a completion is its plan, aims at distinct records and has at most 2k+8 actions |
| Actions.RefundPendingList | src/storage.py:772-882 | The action list of a refund from pending is its plan, aims at distinct records and has at most 2k+8 actions |
| Actions.RefundPaidList | src/storage.py:690-738 | The action list of a refund of a paid order is its plan and aims at distinct records |
| Actions.AcknowledgeList | src/storage.py:1262-1296 | The action list of a repeated payment event is its plan and aims at distinct records |
| Actions.DeferList | src/storage.py:1136-1200 | The action list of a deferral is its plan and aims at distinct records |
| Backends.ValidatePlan | src/storage.py:1808-1827 | A plan passes exactly if it has between 1 and 100 actions on pairwise distinct records, its encoded size aside |
| Backends.Backend.Transact | src/storage.py:1784-1805 | All of the plan or nothing, judged on the tables of that moment; a refusal means nothing was written and a condition failed |
| Refusals.AdjustDecides | src/storage.py:165-221 | An adjustment that cannot be committed from the stock as it stands cannot be committed by any plan |
| Refusals.FinishDecides | src/storage.py:1203-1240 | For a held reservation the end planned from the records as they stand commits exactly if its ids are unused and its event is bound to it, and otherwise no plan of the call does |
| Refusals.ReserveNeedsStock | src/storage.py:281-300 | Without enough of every stock, or with too large a total, no checkout can be committed |
| Refusals.ReserveDecides | src/storage.py:303-451 | With enough stock a checkout commits exactly if nobody has used its ids or its key |
| Refusals.RefundPendingDecides | src/storage.py:742-884 | For a pending order everything depends on the refund planned from the records as they stand |
| Refusals.RefundsExactlyCovered | src/storage.py:660-690 | A refund event can be committed exactly while its order is paid or pending and costs at least the refund, in its currency, and its ids are new |
| Exactness.AdjustsExactly | src/storage.py:165-221 | An adjustment can be committed exactly while the stock as it stands allows it, at its revision |
| Exactness.AdjustLeaves | src/storage.py:175-221 | It moves the units on hand by its delta, touches nothing reserved, and tells the new counts |
| Exactness.ChecksOutExactly | src/storage.py:281-451 | A valid checkout can be committed exactly while every stock has its units left, its total is in bounds, and its ids and key are new |
| Exactness.CheckoutLeavesAccess | src/storage.py:360-378 | The fiscal access of a checkout begins with the caller's proof and window, no attempt, waiting for the payment |
| Exactness.DefersExactly | src/storage.py:1104-1201 | A deferral can be committed exactly while its reservation is held and due, five minutes before the time it names |
| Exactness.RotatesExactly | src/storage.py:453-506 | A proof is replaced exactly by another one, while payment is pending and before the access expires |
| Exactness.MessageIsSent | src/storage.py:1562-1615 | A recorded payment event leaves its notification exactly if the order that was read asks for it |
| Stores.CommerceStore.Replay | src/storage.py:1488-1495 | A stored receipt of the same request answers the call, one of another request refuses it, and nothing is written |
| Stores.CommerceStore.Execute | src/storage.py:1636-1669 | A result is what the receipt says; a conflict means this call wrote nothing; an unknown outcome means all or nothing |
| Stores.CommerceStore.Reread | src/storage.py:1644-1668 | After a refusal or a lost reply, the receipt read again decides between the recorded result, a conflict and not knowing |
| Stores.CommerceStore.AdjustStock | src/storage.py:142-221 | Settles its key: at most one commit, replay while the receipt exists, refusal only when nothing could be committed; the told counts add up and are the stock's while nothing has moved it since |
| Stores.CommerceStore.ReserveCheckout | src/storage.py:223-451 | Settles its key; a replay may only rotate the fiscal proof of a pending access; any answer, replayed ones included, tells the times of its reservation and order: expiry 35 minutes after creation, reconciliation five minutes later |
| Stores.CommerceStore.RotateFiscalAccess | src/storage.py:453-506 | A replay replaces the proof while payment is pending, and otherwise changes nothing |
| Stores.CommerceStore.FinishReservation | src/storage.py:1203-1429 | Settles its key, or finds the reservation ended as asked and writes nothing; any answer repeats a reservation that has ended as asked |
| Stores.CommerceStore.ApplyPaymentEvent | src/storage.py:556-618 | Settles the event's own key, with its inbox record deciding repeated deliveries; an answered success means that the named reservation is committed and its order paid or refunded, an answered failure that it is released and not paid |
| Stores.CommerceStore.RecordRefundEvent | src/storage.py:620-740 | Settles the refund event's key on both paths, paid and still pending; an answer means that the order is refunded by this refund, for at most its amount and in its currency |
| Stores.CommerceStore.DeferReservation | src/storage.py:1104-1201 | Settles its key, for a next time exactly five minutes ahead |
| Stores.CommerceStore.EventReplay | src/storage.py:1497-1518 | The inbox answers exactly the same event in the same domain |
| Stores.CommerceStore.FiscalAccessOperations | src/storage.py:1431-1476 | A verified payment opens a pending access until now plus its window, an unpaid end closes it, and anything else adds nothing or refuses |
| Stores.CommerceStore.MoveStocks | src/storage.py:1298-1330 | Every allocation's stock is read and moved, or the first that cannot move refuses |
| FiscalStores.RedemptionIsCurrent | src/fiscal_storage.py:214-260 | A committing redemption was planned from the access as it stands, under an unused key |
| FiscalStores.RedemptionCommits | src/fiscal_storage.py:470-477 | A claimable access and an unused key are all that a redemption needs |
| FiscalStores.RedemptionLeaves | src/fiscal_storage.py:214-286 | A committed redemption uses the access up in an attempt of its own, opens its request with the claim's details, and records both |
| FiscalStores.ClaimsReplay | src/fiscal_storage.py:204-211 | A claim repeated after it was recorded changes nothing and gets the recorded request |
| FiscalStores.MovePossible | src/fiscal_storage.py:362-407 | A request moves exactly at the expected revision and from the statuses that its action is for |
| FiscalStores.MoveLeads | src/fiscal_storage.py:53-64 | A committed move leaves the stored request in the status that its action leads to; a correction brings new details |
| FiscalStores.FiscalStore.RedeemClaim | src/fiscal_storage.py:167-286 | At most one redemption or failed attempt; an answer is a recorded request; a refusal consumed nothing |
| FiscalStores.FiscalStore.RecordFailedAttempt | src/fiscal_storage.py:288-315 | A failed claim costs at most one attempt, and only of an eligible access; a lost reply is the backend's own exception |
| FiscalStores.FiscalStore.MoveRequest | src/fiscal_storage.py:328-426 | A move is committed at most once, leaves the status that its action leads to, and a lost reply passes through |
| SortKeys.JoinInjective | src/storage.py:97-101 | Fields without a separator can be read back from their joined text |
| SortKeys.KeysIdentify | src/storage.py:97-101 | Two records of the listed kinds with safe identifiers never share a stored key, whatever tables they are in; the inbox is one kind for all events |
| Decimals.PaddedOrder | src/storage.py:2467-2468 | Within the width, zero-padded numerals are ordered as their numbers, whatever follows them |
| DueKeys.RangeIsTime | src/storage.py:1763-1775 | Below ten to the twentieth a marker lies in the query range exactly when it is due |
| DueKeys.RangeExactly | src/storage.py:1763-1775 | For any two times: a marker lies in the query range exactly if its time is in order with the bound, times of unequal width being compared by their leading digits |
| DueKeys.RightExactly | src/storage.py:1763-1775 | For any two times: exactly when lying in the range is the same as being due |
| DueKeys.RightBelowExactly | src/storage.py:2475-2482 | All times below a bound are ordered rightly if and only if the bound is at most ten to the twentieth |
| DueKeys.PastTheWidth | src/storage.py:2475-2482 | With twenty-one digits a marker is in range long before it is due |
| DueLists.StaleEntryIsSafe | src/storage.py:985-1038 | However stale an index entry is, its row is gone or is the due reservation that the entry announced |
| DueLists.ListEntries | src/storage.py:965-1039 | Nothing that the store wrote below the width is called invalid, and every entry whose marker still stands is listed |
| DueLists.ListDueReservations | src/storage.py:938-1039 | Limits are checked, at most limit times pages are listed, each due in the asked environment |
| Reconcilers.ReservationReconciler.Act | src/reconciliation.py:79-122 | A reservation is ended only in the way the lookup's finding calls for, and a counted outcome is in the tables |
| Reconcilers.ReservationReconciler.HandleDue | src/reconciliation.py:68-142 | One item commits nothing but a justified end and deferrals, and a failure can only defer |
| Reconcilers.ReservationReconciler.Run | src/reconciliation.py:51-143 | Every commit of a run is a deferral or an end for which this run had found the evidence before it committed; on normal return the counters balance and account for what is in the tables |
| Reconcilers.CountedIsEnded | src/domain/inventory.py:166-178 | A counted end is an end: the reservation is committed or released for the reason that was found |
| Catalogs.CatalogStore.QueryPrefix | src/catalog_storage.py:728-761 | The interface assumed of the table: a stretch of rows after the cursor, of any size, with a cursor unless nothing is left |
| Catalogs.CatalogStore.ListPublicOffers | src/catalog_storage.py:537-578 | At most the requested number, at most two queries, the active offers of a stretch of rows and the cursor where it ends |
| Catalogs.PagingIsTheFilter | src/catalog_storage.py:548-578 | Paging until no cursor comes back lists exactly the active offers in key order, each once, whatever the limits and page cuts |
| Catalogs.ActivesAre | src/catalog_storage.py:558-567 | The filter keeps the offers of exactly the active rows |
| Catalogs.CursorsIncrease | src/catalog_storage.py:571-577 | Every cursor lies behind the one it was got with |
| Subscriptions.ShowsTheLatest | src/subscription_storage.py:84-110 | After any interleaving with stale reads, races and other events in the shared inbox, a projection shows the recorded event with the largest source revision |
| Subscriptions.Converges | src/subscription_storage.py:65-155 | Every delivery order of a set of events, with any repetitions, ends with each subscription showing its latest event, of those whose ids no payment or refund event has taken |
| Subscriptions.AnswersAreTrue | src/subscription_storage.py:84-155 | In every run each recorded answer repeats its event, or, if that was stale, a later recorded event that had been applied |
| Subscriptions.RevisionsRise | src/subscription_storage.py:100-110 | Of any two projections that a subscription ever had, the one of the later source revision has the greater revision |
| Subscriptions.SubscriptionProjectionStore.ApplyVerifiedEvent | src/subscription_storage.py:65-155 | At most one commit; an answer is a recorded one, and repeats the event or, if that was stale, a later one; a repeated event gets the recorded answer; a conflict wrote nothing |
| RecoveryKeys.MatchesEncodings | src/common/http.py:49-52 | The expression accepts exactly the unpadded base64url encodings of 32 bytes |
| RecoveryKeys.DecodeEncode | src/common/http.py:145-148 | Decoding undoes encoding for any bytes, and encodings are canonical |
| RecoveryKeys.EncodeDecode | src/common/http.py:145-148 | Encoding undoes decoding on canonical texts |
| RecoveryKeys.DecodeInjective | src/common/http.py:141-150 | Two keys that pass and decode alike are the same key |
| RecoveryKeys.AcceptsMatches | src/common/http.py:135-151 | The checks behind the expression never fail, and accepted keys stay apart |
| Attributes.FromTo | src/storage.py:1897-1939 | Every finitely nested value survives being stored and read back |
| Attributes.ToFrom | src/storage.py:1897-1939 | A readable attribute is one that the encoder writes exactly if it is canonical |
| Attributes.ParsePrint | src/storage.py:1904-1905 | Integers, negative ones included, survive decimal printing and parsing |
| MigrationSteps.PreparedIsReadable | src/migration_storage.py:187-227 | A prepared record passes the strict read exactly if its brief is valid and its clock positive |
| MigrationSteps.ApprovedIsReadable | src/migration_storage.py:471-482 | Exactly when an approval leaves a readable record |
| MigrationSteps.CommandedIsReadable | src/migration_storage.py:707-752 | Exactly when a command result leaves a readable record |
| MigrationSteps.EventedIsReadable | src/migration_storage.py:1052-1110 | Exactly when an applied event leaves a readable record |
| MigrationSteps.CommandAndEventCommute | src/migration_storage.py:707-752 | An accepted command and the progress report of the same change give the same outcome in either order, readable all the way |
| MigrationRuns.RunKeeps | src/migration_storage.py:307-430 | After any run every earlier version of a request evolved into the stored one, and execution states stand behind an approval |
| MigrationGuarantees.ReadableExactly | src/migration_storage.py:790-951 | All requests of a run are readable at its end if and only if no committed write was one of the listed exceptions |
| MigrationClocks.ReadableUnderForwardClock | src/migration_storage.py:790-951 | Under a server clock that moves forward and with controls let through by `prepare_control`, all requests can be read if and only if no write was one of three kinds or met the cap on storage revisions |
| MigrationGuarantees.UnreadableIsStuck | src/migration_storage.py:790-951 | A record that the validator refuses is never written again |
| MigrationGuarantees.RunsFollowTheTable | src/migration_storage.py:82-100 | Each write takes one step of the transition table; a state change raises the state revision, but for a completed event that cancels a requested cancellation |
| MigrationGuarantees.RevisionsOnlyGrow | src/migration_storage.py:574-616 | Revisions never decrease, what identifies a request stays, and a canceled request stays canceled |
| MigrationGuarantees.ApprovalGate | src/migration_storage.py:457-489 | Execution states imply an approval of exactly the stored dry run, given before the preview expired |
| MigrationGuarantees.ApprovalIsFinal | src/migration_storage.py:716-717 | Once given, an approval and the dry run it approves never change |
| MigrationGuarantees.OneSnapshotPerRevision | src/migration_storage.py:562-573 | For each revision at most one progress snapshot is ever applied, although only the last one is remembered |
| MigrationGuarantees.PhasesNeverReturn | src/migration_storage.py:82-100 | Over any stretch of a run no preview is made again, executed requests never wait for approval again, and a cancellation is never taken back |
| MigrationGuarantees.EveryBriefIsSound | src/migration_storage.py:992-1000 | Every stored request replaces an offer by another one of the same currency and recurrence, within the bounds of preparation |
| MigrationHistories.TellsItsStory | src/migration_storage.py:1052-1110 | After any run a stored request says exactly what was recorded of it, told one result after the other: counts of the last event that carries any and zero before, dry run of the last preview result, note of the last item, state of the last move |
| MigrationHistories.CommandAnswersItsStory | src/migration_storage.py:707-752 | A recorded command result is answered with the story up to it |
| MigrationHistories.EventAnswersItsStory | src/migration_storage.py:574-616 | A recorded event too, and its answer says whether it came too late to change anything |
| MigrationHistories.AcceptedLeads | src/migration_storage.py:728-744 | An accepted result at the next revision leaves previewing, scheduled, paused, running or requested cancellation, by its operation; after a pause only a resume is let through, after a resume only a pause, after a cancellation nothing |
| MigrationHistories.LetThroughIsTaken | src/migration_storage.py:491-511 | What `prepare_control` let through and the provider accepts at the next revision is recorded unless its key was used |
| MigrationHistories.LateIsTaken | src/migration_storage.py:707-726 | A result at a revision that the request has already reached is recorded exactly if its key is new, its job fits and an execution is approved |
| MigrationHistories.ApprovalIsTaken | src/migration_storage.py:457-489 | Exactly the dry run that waits for it can be approved, once, and before its preview expires |
| MigrationHistories.EventIsTaken | src/migration_storage.py:530-616 | Exactly the new events that are bound to the request, contradict no applied report of their revision, and are stale or possible can be recorded |
| MigrationGuarantees.RecordedOnce | src/migration_storage.py:356-430 | A command result is recorded once per operation and key, an event once per dedupe key |
| MigrationExceptions.Reach | src/handlers/subscription_action.py:253-300 | From empty tables any valid request can be brought to its preview |
| MigrationExceptions.ProgressSkipsPreview | src/migration_storage.py:1063-1077 | A progress report may move a request past its preview result, and strands it |
| MigrationExceptions.CancelingUnapproved | src/migration_storage.py:1063-1077 | A report of canceling strands a request that was canceled while it previewed |
| MigrationExceptions.CommandWhilePreviewing | src/migration_storage.py:736-752 | A cancellation up for review, recorded over the preview command, strands the request |
| MigrationExceptions.ClockRunsBackwards | src/migration_storage.py:1087-1102 | An event under a server time before the preparation strands the request |
| MigrationExceptions.ReachApproval | src/migration_storage.py:1063-1077 | From empty tables any valid request can be brought to where it waits for its approval |
| MigrationExceptions.ApprovalClockRunsBackwards | src/migration_storage.py:471-489 | An approval under a server time before the preparation strands the request |
| MigrationExceptions.PauseUnapproved | src/migration_storage.py:307-430 | A pause that needs review, recorded without `prepare_control`, strands a request that is not approved |
| MigrationExceptions.StorageCap | src/migration_storage.py:1087-1102 | A run of reports on items reaches the largest storage revision, and the next one strands the request |
| MigrationStores.RunReceipts | src/migration_storage.py:1133-1155 | Every receipt that a run leaves passes the strict checks of its replay, and says what its command or event said |
| MigrationStores.MigrationRequestStore.PreparePreview | src/migration_storage.py:135-256 | At most one preparation; an answer is the stored request of the same brief and key; a conflict names a real difference |
| MigrationStores.MigrationRequestStore.ApproveExecution | src/migration_storage.py:432-489 | An answer is the stored request with this approval; a refusal before the write was inevitable; after a sent write whose reread came through, the undeclared exception means exactly that nobody has approved or stranded the request since |
| MigrationStores.MigrationRequestStore.PrepareControl | src/migration_storage.py:491-511 | A control is let through exactly on the readable record at the expected revision in a state that allows it |
| MigrationStores.MigrationRequestStore.RecordCommandResult | src/migration_storage.py:307-430 | At most eight attempts and one commit; an answer is the recorded one, and for an own commit at the next revision it shows the state that the operation leads to, one by one; the same key with another request is refused |
| MigrationStores.MigrationRequestStore.ReplayCommand | src/migration_storage.py:272-305 | The recorded result of the same request, nothing when there is none, a conflict otherwise, and no write |
| MigrationStores.MigrationRequestStore.ApplyVerifiedEvent | src/migration_storage.py:513-670 | At most one commit; an answer is the recorded one and, unless the event was stale, carries its state, counts and dry run; a repeated event is answered from its receipt |
| MigrationApprovals.UnplannedUnlessClosed | src/migration_storage.py:1295-1302 | Whatever was written since the first read, the reread ends in the undeclared exception if and only if nobody approved the request and nobody left it unreadable |
| MigrationApprovals.UnplannedIsReached | src/migration_storage.py:672-704 | From empty tables: a lost approval with nobody else about gets there, and one refused because of a report on an item |

## Left out

- Expiry: receipts, access records and event inboxes have a time to live; the model keeps them.
- Backends.ValidatePlan: leaves out the 4 MiB limit on the encoded plan, because plans have no encoding in the model.
- The backend's own replay of a client token.
- Reason codes of fiscal corrections and their validation; the details that a correction brings are modelled.
- Syntax checks of identifiers, hashes, domains and texts, except where a key or a cursor depends on them.
- Audit fields (request ids, correlation ids, actor hashes of the commerce store) and their validation.
- Digests are modelled by their preimages; collisions and truncation are not modelled.
- Reads that fail before anything was sent: they end a call without a write, and only rereads and replies may fail here.
- Outbox delivery, `get_outbox` and `mark_outbox_delivered`: a relay with easier members.
- `quarantine_due_marker`: by `DueLists.ListEntries` no marker that the store writes below the width is quarantined.
- Offer and discount lifecycles, catalog creation and update, subscription access pauses and preview timestamps.
- `checkout_outcome` and the HTTP, queue and provider layers; provider answers and policy lookups are arbitrary inputs.
- Numerals that only Python's `int` reads (blanks, signs, underscores); the table returns none of them.
- DueLists.QueryDue: the index is eventually consistent, so which markers a page holds is left open.
- Catalogs.CatalogStore.ListPublicOffers: stands for one fixed catalog; writes between the pages are not modelled.
- Reconcilers.ReservationReconciler.LookUp: the provider's answer and the published policy are left open.
