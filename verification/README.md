# Checkout, stock, payments and sessions: a verified model

The shop is a set of Go services. An order is placed by `Checkout`, which prices a cart, has inventory hold the
stock, and writes the idempotency key, the order and an event in one transaction. What follows is asynchronous: a
payment marks the order paid or a timeout cancels it; the event that announces this travels through the outbox, a
relay, Kafka and the inbox back to the order service; and its consumer has inventory sell the held stock or take it
back, while a reaper expires holds nobody came back for.

This project models that code in Dafny and proves what it promises, for every run: any number of concurrent
calls, repeated deliveries, failed publishes, retries and crashes between any two steps.

## How it is built

Code that changes state step by step appears three times, each tied to the next by proof:

1. as classes and methods with the source's fields, branches and loops (`Reservation`, `InventoryService`, `Order`,
   `OrderStore`, `OrderService`, `Payment`, `PaymentService`, `Outbox`, `Inbox`, `RefreshToken`, `SessionService`,
   `Manager`), whose `ensures` equate the new state with a function of the old one;
2. as those functions, one a transaction (`ReserveTx`, `SettleTx`, `PlaceTx`, `PayTx`, `SweepTx`, `RecordTx`, ...);
3. as step machines that interleave them. A use case is cut wherever it waits: between a read and a versioned write,
   around a remote call, before and after a transaction. Each machine has a `Step` type, an `Enabled` predicate, a
   `Next` function, an invariant kept by every step, and theorems about every run.

| files | what they hold |
|---|---|
| `Text`, `CanonicalLines`, `OrderTotals`, `Orders`, `Payments`, `Reservations` | values, arithmetic and aggregates |
| `StockLedger`, `LedgerSafety`, `StaleSettles`, `InventoryUseCases`, `StockAnswers` | inventory's tables, its interleaved transactions, conservation; what each request is answered |
| `LockOrder`, `SweepLocks`, `LedgerLocks` | row locks and deadlock |
| `Delivery`, `DeliverySafety`, `Relay`, `RelayAnswers`, `Consumer` | outbox, relay, broker, consumer group, inbox; what a cycle and a message come to |
| `OrderTables`, `Checkout`, `CheckoutAnswers`, `CheckoutRuns` | the order service's transactions; one checkout call from end to end: what it answers, and the run of the machine it is |
| `CheckoutSaga`, `CheckoutSafety`, `CheckoutGuarantees` | all of the above as one machine |
| `LostCommit`, `Compensation`, `OneSale` | what one lost commit can do to it, and a run in which nothing goes wrong |
| `Charging`, `ChargingAnswers`, `ChargingRuns` | charging a provider; one payment call from end to end: what it answers, and the run of its machine it is |
| `PaidFor` | checkout and charging side by side: what is sold was paid for |
| `Sessions` | refresh-token rotation |
| `Fingerprint`, `Paging`, `Backoff`, `Transactions` | self-contained algorithms |

## What is assumed

- Each SQL statement is atomic, and a transaction that locks the row it decides about (orders, payments) is one
  step. Inventory's settle, which reads without locking, is two. Rotating and revoking refresh tokens is taken
  statement by statement, with the rows an open transaction has locked and the rows a statement could see when it
  began.
- A commit reported as failed did not land. This is needed for checkout only: `LostCommit.LostCommitBreaksTheSaga`
  is a run without it, and `Compensation.LostCommitStrandsIff` says exactly when an order can be left standing over
  a hold that was given back. `Charging` does without it.
- The broker keeps one key's messages in the order they were handed over. A publish that fails, or a crash before
  the mark commits, may leave any part of a batch in the log that respects this, any number of times.
- No fetch succeeds after shutdown has begun, so a consumer never commits past a message it left.
- Events of one aggregate become visible in the order of their outbox ids, since their writers hold the aggregate's
  row; and one relay runs at a time.
- Commits and releases of reservations are asked for by the order service only, and there only by
  `order_service.go` (a checkout's release) and `checkout_saga.go` (what an order's ending asks for). Inventory may
  carry out a request at any later time and any number of times.
- A reservation's lines come back from the database in the order they were canonicalised in: that `ORDER BY
  reservation_id, sku` (`services/inventory/db/queries/reservations.sql:37-39`) sorts as Go compares strings, byte by
  byte, which is for the column's collation to see to; no migration names one. `Reservation.Matches`,
  `InventoryUseCases.ReserveAgain` and `LedgerLocks.RequestsNeverDeadlock` rest on it: read back in another order, equal
  lines would not match, and settles would not keep to the order reserves take their rows in.
- The identity a payment call reads its order under is the caller's own, so `GetOrder` answers about that user's orders
  only (`services/order/internal/app/order_service.go:286-288`).
- Orders, reservations, idempotency keys and inbox rows are never deleted (no caller deletes expired keys).

## Where the code and its documentation differ

- `services/inventory/internal/adapter/out/postgres/stock_repository.go:168-176` says that finding less reserved than
  a hold can only mean that counts and reservations disagree. Two settles that read one hold before either writes
  reach it with the counts in perfect order (`LedgerSafety.StaleCommitFindsCountsInconsistent`). A commit does
  exactly if all live holds of some SKU it holds add up to less than it holds of it
  (`StaleSettles.CommitIsInconsistentIff`; `ReleaseIsInconsistentIff` is the counterpart for releases), which a
  settle whose copy is still current never finds (`LedgerSafety.CurrentSettleIsNotBlocked`).
- `services/inventory/internal/domain/reservation.go:97-101` says that taking rows in one order everywhere rules
  deadlock out, and `services/inventory/db/queries/reservations.sql:34-36` that sweepers contend rather than
  deadlock. But a sweep takes all its reservations' rows before any stock row, where a settle takes its one behind
  them; and it returns hold after hold, each in SKU order, so that over a batch the SKUs come in no order at all.
  Besides, ending a hold locks its entry in `reservations_held_order_idx`, which a reserve for the same order waits for.
  Two transactions deadlock exactly if they share rows or entries and the one of these that the first comes to first
  is not the one that the second does (`SweepLocks.PairDeadlocksIffFirstsDiffer`). So a sweep of several reservations
  can deadlock with a reserve, with a settle of a reservation it did not claim (`SweepLocks.BatchOfTwoDeadlocks`) and
  with another sweep (`SweepLocks.SweepAndSweep`), and any sweep with a settle of a reservation it did claim
  (`SweepLocks.OwnReservationDeadlocks`). A sweep of one reservation is safe beside any number of reserves and of
  settles of others (`LedgerLocks.SweepOfOneNeverDeadlocks`).
- `services/identity/internal/app/session_service.go:284-302` and `:212-229` end a chain with one UPDATE, which sees
  what was committed when it began. A rotation that commits between that moment and the end of the statement leaves
  a live successor behind, although the caller is told that the chain is over (`Sessions.ReuseCanMissARotation`). It
  is over for good if there is none such, whatever else happens (`Sessions.RevocationEndsTheChain`), and otherwise only
  if somebody else ends it too (`Sessions.RevocationEndsTheChainIff`, `Sessions.RevocationEndsWhatItSaw`).
- `pkg/grpcx/client/retry.go:105-106` says that an overflowed shift comes out negative. It can come out positive and
  small; `Backoff.CeilingIsIdealIff` says exactly when.
- A decline that comes without a reference, followed by one that has it, leaves the attempt without
  (`Payments.LateReferenceIsDropped`), though `services/payment/internal/app/payment_service.go:366-367` says a
  declined charge has one.
- The bound that keeps `canonicalLines` from wrapping is not in it but in the parsing of each quantity
  (`CanonicalLines.UnboundedQuantityWraps`).

## Model

| member | source | states |
|---|---|---|
| `CheckoutGuarantees.HoldsEndAsOrdersDo` | services/order/internal/app/checkout_saga.go:66-146 | in every reachable state, sold stock belongs to a paid order and is what that order sells; stock given back belongs to no order or to a cancelled one |
| `CheckoutGuarantees.OrdersKeepTheirHolds` | services/order/internal/app/order_service.go:93-172 | a paid or pending order's hold is held, sold or expired, never released; an unpaid order's is never sold; no two orders share a hold |
| `CheckoutGuarantees.OneOrderPerKey` | services/order/internal/app/order_service.go:174-198 | calls sharing user and key place one order; any two that are answered get the same order if their fingerprints agree, and not both if they differ |
| `CheckoutGuarantees.AnswersAreTrue` | services/order/internal/app/order_service.go:134-171 | whoever is answered with an order is the user of an order stored under that key with the same fingerprint; whoever is told the key was reused can be shown the order, of the same user, that used it with another |
| `CheckoutGuarantees.SameOrderExactlyForTheSameCart` | services/order/internal/app/order_service.go:350-374 | with a digest that does not collide, of two calls sharing user and key the second gets the first one's order exactly if it asked for the same multiset of lines, and is refused if not |
| `CheckoutGuarantees.OrderedIsReserved` | services/order/internal/app/order_service.go:115-157 | an order sells, SKU by SKU, exactly what its reservation holds |
| `CheckoutGuarantees.ConsumedIsDone` | services/order/internal/app/checkout_saga.go:124-146 | behind the committed offset every event is dead-lettered, or inventory has sold the paid order's stock or has the cancelled order's back |
| `CheckoutGuarantees.EveryUnitIsAccountedFor` | services/inventory/internal/app/inventory_service.go:162-198 | units delivered = on the shelf + held + what distinct paid orders bought; no unit is sold twice |
| `Compensation.LostCommitStrandsIff` | services/order/internal/app/order_service.go:158-162 | from any reachable state: after a commit whose outcome was lost, some run in which nothing else goes wrong gives back the hold of an order that stands, if and only if the key was free, the lines make an order, and the hold is still held |
| `Compensation.HonestStrandsNothing` | pkg/txmanager/txmanager.go:74-76 | without a lost commit no run from any reachable state does |
| `OneSale.AnHonestRunSells` | services/order/internal/app/checkout_saga.go:66-146 | a run from the empty state in which nothing goes wrong and a unit is sold: order paid, hold committed, events consumed |
| `LostCommit.LostCommitBreaksTheSaga` | services/order/internal/app/order_service.go:158-162 | a concrete run: such a commit, the compensating release and a payment leave a paid order whose hold was released |
| `CheckoutSafety.StepKeepsInv` | services/order/internal/app/order_service.go:93-264 | every step of calls, sweeps, payments, pipeline and ledger keeps the invariant that ties the services together |
| `CheckoutSafety.RunKeepsInv` | services/order/internal/app/checkout_saga.go:66-146 | so does every run in which no lost commit landed |
| `CheckoutSafety.SweepMoves` | services/order/internal/app/saga_timeout.go:69-98 | a timeout batch moves orders only forward, and every event it raises is true of the tables it commits with |
| `CheckoutSafety.PostIs` | services/order/db/migrations/20260824090200_create_outbox.sql:1-45 | an event committed with its order is the pipeline's write and show of one row |
| `Checkout.OrderService.Checkout` | services/order/internal/app/order_service.go:93-172 | the call, statement by statement: replay, price, reserve, place, and the release of a hold it could not use; with requests and answers to inventory lost, the transaction failing, or its commit landing unseen |
| `CheckoutAnswers.RetriesAreAnswered` | services/order/internal/app/order_service.go:174-198 | a call whose key was used before is answered with that key's order if the fingerprints agree and told the key was reused if not, whatever else would go wrong, and changes nothing |
| `CheckoutAnswers.NewCallsAreAnswered` | services/order/internal/app/order_service.go:93-172 | a call under an unused key gets the order it places if and only if every line can be sold, the lines make an order, inventory can hold them, and neither the answer to its reserve nor its commit is lost; else an error; the order is stored in these cases and when its commit landed unseen, and no others |
| `CheckoutAnswers.NothingIsRefused` | services/order/internal/app/order_service.go:332-348 | a cart of nothing gets an error and changes nothing |
| `CheckoutAnswers.OrderIffItMakesOne` | services/order/internal/domain/order.go:80-161 | a priced cart has a total if and only if it is of 1 to 100 different goods in one currency and costs no more than int64 counts |
| `CheckoutRuns.CheckoutNowIsARun` | services/order/internal/app/order_service.go:93-172 | the call, whatever goes wrong in it, is a run of the checkout machine from any state: same tables, events and stock, same answer |
| `CheckoutRuns.CallsLeadToReachableStates` | services/order/internal/app/order_service.go:93-172 | so from a reachable state, unless its commit lands unseen, it ends in one, where all that is proved of them holds |
| `Checkout.UnplacedLeavesNoTrace` | services/order/internal/app/order_service.go:158-169 | a checkout that places no order, whatever failed, leaves tables and events as they were, and every stock count too; except that a lost answer to its reserve, or a release that never arrived, leaves one live hold, whose return restores the counts |
| `Checkout.PlacedIsOrdered` | services/order/internal/app/order_service.go:134-171 | one that places an order sells the requested lines at the catalog's prices, has its key claimed, and has announced the order and nothing else |
| `Checkout.PlacedIsHeld` | services/order/internal/app/order_service.go:134-171 | it has a hold of exactly what it sells until now + TTL, and is answered with the order, unless its commit landed unseen; then it is answered with an error, and the hold is live only if the release got lost |
| `Checkout.TakenThenReturned` | services/inventory/db/queries/stock_items.sql:22-56 | reserving canonical lines and releasing them restores every count, and the release is never refused |
| `OrderTables.PaymentIsHandledOnce` | services/order/internal/app/checkout_saga.go:76-98 | a payment is handled if and only if its event was before, or its order waits for it or is paid; then the order is paid and announced once, and a redelivery changes nothing; if not, it says why and leaves no claim |
| `OrderTables.SweepCancelsTheStale` | services/order/internal/app/saga_timeout.go:57-104 | the sweep cancels exactly the stale orders it claimed, and leaves the rest |
| `OrderTables.SweepAnnouncesTheStale` | services/order/internal/app/saga_timeout.go:69-98 | it counts each of these once and announces the cancellation of each |
| `OrderTables.NoWindowNoSweep` | services/order/internal/domain/order.go:288-295 | without a window it cancels nothing, whatever it claimed |
| `OrderTables.PricedIsHeld` | services/order/internal/adapter/out/grpcclient/catalog.go:83-92 | a request that was priced becomes its own lines at the catalog's prices, and reaches inventory with no count narrowed |
| `OrderTables.PricedIff` | services/order/internal/app/order_service.go:207-240 | a cart can be priced if and only if the catalog prices each of its lines and each count is one it sells |
| `OrderTables.PriceRequest` | services/order/internal/app/order_service.go:223-240 | the pricing loop against its specification |
| `OrderTables.OrderStore.MarkPaid` | services/order/internal/app/checkout_saga.go:76-98 | claim, transition, write and event, or nothing |
| `OrderTables.OrderStore.Place` | services/order/internal/app/order_service.go:134-157 | key, order and event, or why not; nothing of it if a statement or the commit fails |
| `OrderTables.OrderStore.ExpireStaleOrders` | services/order/internal/app/saga_timeout.go:57-104 | the sweep's loop against its specification |
| `OrderTables.OrderStore.Update` | services/order/internal/adapter/out/postgres/order_repository.go:105-141 | succeeds exactly if the row still has the version the order was read at, and then sets its status, bumps its version and drains the events into the outbox; otherwise nothing changes |
| `LedgerSafety.StockIsConserved` | services/inventory/internal/app/inventory_service.go:130-198 | in every reachable state no count is negative, reserved is the sum of live holds, and shelf, holds and sales add up to deliveries |
| `LedgerSafety.StepKeepsInv` | services/inventory/internal/app/inventory_service.go:223-331 | every interleaved step of reserve, settle and sweep keeps that |
| `LedgerSafety.AnswersAreFinal` | services/inventory/internal/app/inventory_service.go:200-216 | whoever was told that a hold is sold, or back, can rely on it for good |
| `LedgerSafety.MovingSettleSucceedsIffCurrent` | services/inventory/db/queries/reservations.sql:41-51 | of settles that read one hold, exactly the one whose version is still current takes effect |
| `LedgerSafety.CurrentSettleIsNotBlocked` | services/inventory/internal/adapter/out/postgres/stock_repository.go:168-193 | a settle with a current copy never finds less reserved than its hold |
| `LedgerSafety.StaleCommitFindsCountsInconsistent` | services/inventory/internal/adapter/out/postgres/stock_repository.go:168-193 | a run in which a stale one does |
| `StaleSettles.CommitIsInconsistentIff` | services/inventory/internal/adapter/out/postgres/stock_repository.go:168-193 | in every reachable state a commit is told the counts are inconsistent if and only if, of some SKU it holds, all live holds together hold less than it does |
| `StaleSettles.ReleaseIsInconsistentIff` | services/inventory/internal/adapter/out/postgres/stock_repository.go:168-193 | a release is if and only if that is so at some line, and at every line before it it is not and the return fits the column |
| `LedgerSafety.SweepEndsWhatItClaims` | services/inventory/internal/app/inventory_service.go:223-273 | a sweep that goes through expires every hold it claimed, counts them, and touches no other |
| `LedgerSafety.TrackConserves` | services/inventory/internal/app/inventory_service.go:89-104 | a newly tracked SKU starts in balance |
| `LedgerSafety.AdjustConserves` | services/inventory/db/queries/stock_items.sql:70-83 | an adjustment changes what was delivered by its delta and nothing else |
| `InventoryUseCases.ReserveAgain` | services/inventory/internal/app/inventory_service.go:162-174 | reserving again for the same lines, reordered or repeated, returns the same hold and takes nothing; other lines are refused |
| `InventoryUseCases.SettleAgain` | services/inventory/internal/app/inventory_service.go:283-314 | committing or releasing again changes nothing; a sale cannot be released nor a release sold |
| `InventoryUseCases.InventoryService.ReserveStock` | services/inventory/internal/app/inventory_service.go:130-198 | the use case against its transaction |
| `StockAnswers.ReserveSucceedsIff` | services/inventory/db/queries/stock_items.sql:22-42 | a reserve for an order that holds nothing is done if and only if the request is well formed, there is time to hold, and of every SKU asked for the shelf has as many and the reserved column room for them |
| `StockAnswers.RefusedReserveSaysWhy` | services/inventory/internal/app/inventory_service.go:130-198 | otherwise nothing changes, and it is told what is wrong with the least SKU that is short, or that the request is invalid |
| `StockAnswers.ReserveLeaves` | services/inventory/internal/app/inventory_service.go:176-198 | one that is done leaves a live hold until now + TTL, and of every SKU what was asked for moved from the shelf to it |
| `StockAnswers.ReserveOfALiveHold` | services/inventory/internal/app/inventory_service.go:162-174 | with a live hold it is answered with that hold if it asks for the same totals, refused if not, and takes nothing |
| `InventoryUseCases.InventoryService.Settle` | services/inventory/internal/app/inventory_service.go:286-331 | the use case against its transaction |
| `StockAnswers.CommitAnswers` | services/inventory/internal/app/inventory_service.go:286-331 | the answer to a commit for every state of the row and every time; it sells a live hold before its deadline and does nothing else |
| `StockAnswers.ReleaseAnswers` | services/inventory/internal/app/inventory_service.go:286-331 | the answer to a release; it returns a live hold, at any time, if the column has room for it, and does nothing else |
| `InventoryUseCases.InventoryService.ExpireReservations` | services/inventory/internal/app/inventory_service.go:223-273 | the batch against its specification: all of it or none |
| `StockAnswers.SweepAnswers` | services/inventory/internal/app/inventory_service.go:223-273 | on a reachable ledger a batch of run-out holds goes through if and only if the columns have room for all of it; then every one is expired, counted and back on the shelf; else none is |
| `InventoryUseCases.InventoryService.CreateStockItem` | services/inventory/internal/app/inventory_service.go:89-104 | the use case against its statement |
| `StockAnswers.TrackAnswers` | services/inventory/internal/app/inventory_service.go:89-104 | a SKU is tracked from 0 to a million pieces if and only if it was not before; else it says which, and nothing changes |
| `InventoryUseCases.InventoryService.AdjustStock` | services/inventory/internal/app/inventory_service.go:107-122 | the use case against its statement |
| `StockAnswers.AdjustAnswers` | services/inventory/db/queries/stock_items.sql:70-83 | an adjustment is taken if and only if it is not zero, at most a million either way, of a tracked SKU, and leaves a count between zero and what the column holds; it is of that shelf only |
| `StockAnswers.AdjustRefusals` | services/inventory/internal/app/inventory_service.go:107-122 | which of these it was, if it is refused |
| `InventoryUseCases.MoveLines` | services/inventory/internal/app/inventory_service.go:316-320 | the loop over lines: every statement, or the first failure |
| `Reservations.OneMover` | services/inventory/internal/domain/reservation.go:130-204 | over any attempts at any times exactly one is told it moved the hold, and the hold ends as that attempt could end it |
| `Reservations.EndedStays` | services/inventory/internal/domain/reservation.go:130-204 | an ended hold never moves |
| `Reservations.FirstEffectiveEnds` | services/inventory/internal/domain/reservation.go:130-204 | of any attempts the first that is a release, a commit before the deadline or an expiry from then on ends the hold its own way; without one it stays live |
| `Reservations.EndedAnswers` | services/inventory/internal/domain/reservation.go:140-204 | what each attempt on an ended hold is told |
| `Reservations.Reservation.Commit` | services/inventory/internal/domain/reservation.go:140-162 | the transition, its refusals and its inclusive deadline |
| `Reservations.Reservation.Release` | services/inventory/internal/domain/reservation.go:171-184 | the transition, whatever the time |
| `Reservations.Reservation.Expire` | services/inventory/internal/domain/reservation.go:192-204 | the transition and its inclusive deadline |
| `Reservations.Reservation.Matches` | services/inventory/internal/domain/reservation.go:206-218 | of two canonical lists: true exactly if they ask for the same quantity of every SKU |
| `CanonicalLines.CanonicalForm` | services/inventory/internal/domain/reservation.go:254-291 | the result is strictly sorted, positive and holds exactly the totals asked for; the one refusal is a total above the bound |
| `CanonicalLines.CanonicalExactlyWithinBounds` | services/inventory/internal/domain/reservation.go:254-281 | parsed lines have a canonical form exactly if there are 1 to 100 of them and no SKU totals more than 10000 |
| `CanonicalLines.CanonicalIgnoresOrder` | services/inventory/internal/domain/reservation.go:283-290 | reordered lines have the same form |
| `CanonicalLines.CanonicalIsIdempotent` | services/inventory/internal/domain/reservation.go:88-101 | a canonical list canonicalises to itself |
| `CanonicalLines.UnboundedQuantityWraps` | services/inventory/internal/domain/quantity.go:3-6 | without the bound on a quantity the 32-bit sum wraps to an accepted negative one |
| `CanonicalLines.CanonicalLines` | services/inventory/internal/domain/reservation.go:254-291 | the table, its iteration in any order and the sort against the specification |
| `LockOrder.NoWaitCycle` | services/inventory/internal/domain/reservation.go:97-101 | transactions taking rows in ascending order never wait for themselves through others |
| `LockOrder.EveryRunFinishes` | services/inventory/internal/app/inventory_service.go:180-189 | every run of them is finite and ends with all of them finished |
| `LockOrder.PlansAscend` | services/inventory/internal/app/inventory_service.go:316-322 | canonical lines make reserves, commits and releases take their stock rows, reservation and live-hold entry in one ascending order |
| `SweepLocks.PairDeadlocksIffFirstsDiffer` | services/inventory/internal/domain/reservation.go:97-101 | any two transactions can block each other for good if and only if they share locks and come to different shared ones first |
| `SweepLocks.SweepAndReserve` | services/inventory/internal/app/inventory_service.go:223-273 | a sweep of any batch and a reserve can if and only if, of the stock rows and live-hold entries of the holds it ends, the first that the reserve takes too is not the first of its own that the reserve comes to |
| `SweepLocks.SweepAndSettleOfAnother` | services/inventory/internal/app/inventory_service.go:223-331 | a sweep and a commit or release of a live hold outside its batch can if and only if their first shared stock rows differ |
| `SweepLocks.SweepAndSweep` | services/inventory/db/queries/reservations.sql:29-39 | two sweeps, which claim different reservations, can if and only if what they share of the holds' rows and entries comes first differently |
| `SweepLocks.SweepAndSettleOfItsOwn` | services/inventory/internal/app/inventory_service.go:238-261 | a sweep and a settle of a reservation inside its batch can if and only if they share a SKU |
| `LedgerLocks.SweepOfOneNeverDeadlocks` | services/inventory/internal/app/inventory_service.go:238-261 | on any reachable ledger a sweep that claimed one reservation, and any reserves and any settles of others started together, can always go on and all finish |
| `SweepLocks.BatchOfTwoDeadlocks` | services/inventory/internal/app/inventory_service.go:238-261 | a batch of two with which a reserve, and a settle of a third reservation, can block each other for good |
| `SweepLocks.LiveEntryDeadlocks` | services/inventory/db/migrations/20260819090100_create_reservations.sql:38-49 | a batch of two, in SKU order, with which a reserve for one of its orders can, over the live-hold entry |
| `LedgerLocks.RequestsNeverDeadlock` | services/inventory/internal/app/inventory_service.go:130-216 | on any reachable ledger, any reserves, commits and releases started together can always go on and all finish |
| `DeliverySafety.EffectsAreDistinct` | pkg/inbox/inbox.go:50-73 | in every reachable state, before any offset is committed too, no event has taken effect twice |
| `DeliverySafety.ExactlyOnceOrDead` | pkg/kafkax/consumer.go:83-86 | everything behind the committed offset was accepted, and then, if the group handles it, took effect once, or dead-lettered |
| `DeliverySafety.PipelineRefinesChannel` | pkg/inbox/inbox.go:50-73 | relay, broker, consumer and inbox together do, at every step, nothing or one step of an exactly-once channel |
| `DeliverySafety.PublishedIsInTheLog` | pkg/outbox/relay.go:206-244 | a row marked published is in the log, whatever failed on the way |
| `DeliverySafety.LogFollowsTheAggregate` | pkg/outbox/relay.go:272-305 | an aggregate's log with repeats dropped is a prefix of its rows in id order |
| `DeliverySafety.StepKeepsInv` | pkg/outbox/relay.go:194-244 | every step of the pipeline keeps the invariant behind these |
| `Relay.CycleIsARun` | pkg/outbox/relay.go:206-244 | a cycle that succeeds, fails or dies after any prefix of its batch is a run the pipeline allows |
| `Relay.Outbox.PublishBatch` | pkg/outbox/relay.go:206-244 | claim, publish and mark against that cycle |
| `Relay.Outbox.Claim` | pkg/outbox/relay.go:275-305 | the oldest unpublished visible rows, in id order, up to the limit |
| `RelayAnswers.ClaimIsOldest` | pkg/outbox/relay.go:275-305 | the claimed rows are visible, unpublished and in id order, and any such row left out is younger than all of them, which are then as many as allowed |
| `RelayAnswers.CycleDoes` | pkg/outbox/relay.go:206-244 | a cycle puts what the broker took of these rows at the end of their partitions' logs, marks all of them if it works and none if it breaks, changes nothing else, and reports how many |
| `Relay.Outbox.MarkPublished` | pkg/outbox/relay.go:307-327 | marks every row of the batch, or none when the count is off |
| `Relay.Outbox.Run` | pkg/outbox/relay.go:146-192 | cycle after cycle on the tables: what they come to, and the waits between them, none behind a full batch |
| `RelayAnswers.WaitBehind` | pkg/outbox/relay.go:158-190 | no wait follows a full batch, the poll interval any other that went through, and a failure the wait for as many failures as came in a row before it |
| `Relay.CyclesAreARun` | pkg/outbox/relay.go:146-244 | any number of cycles, working or breaking anywhere, is a run the pipeline allows |
| `Relay.WaitsAreIdealIff` | pkg/outbox/relay.go:167-177 | in int64, every wait after a failure is the poll interval doubled once per failure in a row up to the cap, if and only if both are below 2^62 nanoseconds |
| `Consumer.VerdictMeans` | pkg/kafkax/consumer.go:159-179 | accepted at the first success, given up on exactly if every allowed attempt failed, left if a wait was cut short |
| `Consumer.Process` | pkg/kafkax/consumer.go:155-204 | done with if and only if some allowed attempt succeeded with no wait before it cut short, or all failed and the dead letter was taken, and the commit landed; an error if and only if the dead letter was not taken or the commit failed outside shutdown; else left. The handler is called until its first success or the first cut wait |
| `Consumer.ConcludesRightly` | pkg/kafkax/consumer.go:181-204 | the same of the function the pipeline's runs are stated with |
| `Consumer.ProcessIsARun` | pkg/kafkax/consumer.go:155-204 | whatever it does with a message is a run the pipeline allows, with the offset moved exactly if it reports so |
| `Consumer.Consume` | pkg/kafkax/consumer.go:134-150 | commits the offset of the first message that is not done with, in the sense of `Process`, fails if and only if that one is an error, and the run it is has dealt with everything behind it |
| `Consumer.ConsumingIsARun` | pkg/kafkax/consumer.go:134-204 | whatever happens to each message, the loop is a run the pipeline allows |
| `Consumer.Inbox.Claim` | pkg/inbox/inbox.go:62-92 | one claim of an event is told it took it; incomplete ones are refused and stored nowhere |
| `OrderTotals.TotalIsExact` | services/order/internal/domain/order.go:80-161 | an order is priced exactly if it has 1 to 100 lines, distinct SKUs, one currency and a true total within int64; the stored total is the true one |
| `OrderTotals.SubtotalIsExact` | services/order/internal/domain/line.go:61-77 | the quotient guard refuses exactly the products that would wrap |
| `OrderTotals.Sum` | services/order/internal/domain/order.go:137-161 | the wrapping loop against its specification |
| `OrderTotals.PriceNewOrder` | services/order/internal/domain/order.go:90-111 | the checks of a new order; a repeat is found exactly if there is one |
| `Orders.OneEndingAnnounced` | services/order/internal/domain/order.go:113-131 | whatever is asked of a new order, pulled plus pending events are the placing and at most one ending, the one its status names |
| `Orders.FirstEffectiveEnds` | services/order/internal/domain/order.go:212-312 | of any causes the first that is a payment, a cancellation or a timeout past its window ends the order as paid or cancelled; without one it waits on |
| `Orders.FirstEndingStands` | services/order/internal/domain/order.go:212-312 | an ended order never changes |
| `Orders.Order.MarkPaid` | services/order/internal/domain/order.go:224-241 | the transition, its refusal and its event |
| `Orders.Order.Cancel` | services/order/internal/domain/order.go:253-269 | the transition, its refusal and its event |
| `Orders.Order.Expire` | services/order/internal/domain/order.go:288-312 | the transition, its three refusals and its event |
| `Orders.Order.PullEvents` | services/order/internal/domain/order.go:319-324 | hands every pending event over once |
| `Payments.SettlementIsConfluent` | services/payment/internal/app/payment_service.go:316-348 | answers that agree and name the charge leave the same attempt, up to version, in any order and multiplicity, and publish one ending exactly if one of them was final |
| `Payments.AnswersInClosedForm` | services/payment/internal/app/payment_service.go:356-380 | the attempt after any agreeing answers, references optional, in closed form |
| `Payments.OneEndingPublished` | services/payment/internal/domain/payment.go:185-275 | over any answers at all: one ending published exactly if the attempt ended, saying what its row says; the first reference and ending stand |
| `Payments.OneEndingRaised` | services/payment/internal/domain/payment.go:277-287 | the same for any transitions and pulls of one aggregate |
| `Payments.LateReferenceIsDropped` | services/payment/internal/app/payment_service.go:360-374 | two declines, one unnamed: the reference survives only if the naming one comes first |
| `Payments.ContradictionsAreRefused` | services/payment/internal/app/payment_service.go:356-380 | an answer that names another charge, or ends an ended attempt the other way, is refused and changes nothing; only a second decline is not looked into |
| `Payments.SaidAgain` | services/payment/internal/app/payment_service.go:316-348 | an answer given twice in a row changes nothing the second time |
| `Payments.VersionCountsMoves` | services/payment/internal/app/payment_service.go:316-348 | the row is written, and its version bumped by one, exactly if the answer moved the attempt |
| `Payments.Payment.AttachProviderReference` | services/payment/internal/domain/payment.go:185-201 | set once, repeated freely, refused if different or empty |
| `Payments.Payment.Succeed` | services/payment/internal/domain/payment.go:214-242 | the transition, its refusals and its event |
| `Payments.Payment.Fail` | services/payment/internal/domain/payment.go:256-275 | the transition, its refusal and its event |
| `Payments.Payment.Apply` | services/payment/internal/app/payment_service.go:356-380 | the switch over the provider's three answers |
| `Charging.RecordPrecedesCharge` | services/payment/internal/app/payment_service.go:130-189 | every request for money has an attempt on record with the same order and amount, and no attempt is charged for twice, even if a commit's outcome was lost |
| `Charging.OneChargePerKey` | services/payment/internal/app/payment_service.go:137-170 | no two charges were requested by calls sharing user and key |
| `Charging.OneAnswerPerKey` | services/payment/internal/app/payment_service.go:382-407 | any two calls sharing user and key that are answered get the same attempt if their fingerprints agree, and not both if they differ |
| `Charging.AnswersAreTrue` | services/payment/internal/app/payment_service.go:137-170 | whoever is answered with an attempt finds it stored under that key with the same fingerprint; whoever is told the key was reused, one with another |
| `Charging.SameAttemptExactlyForTheSameRequest` | services/payment/internal/app/payment_service.go:448-456 | with a digest that does not collide, the second of two calls sharing user and key gets the first one's attempt exactly if it asked for the same order by the same method |
| `Charging.OneUnresolvedPerOrder` | services/payment/db/migrations/20260826100000_create_payments.sql:66-85 | of two charges for one order at least one was declined |
| `Charging.StepKeepsInv` | services/payment/internal/app/payment_service.go:84-197 | every step of calls, answers, callbacks and crashes keeps the invariant behind these |
| `PaidFor.PaidOrdersWerePaidFor` | services/order/internal/adapter/in/kafka/payment_events_consumer.go:73-91 | with both services interleaved: an order is paid only if one attempt collected exactly its total from its own user, and every other attempt for it was declined |
| `PaidFor.SoldStockWasPaidFor` | services/payment/internal/app/payment_service.go:105-120 | so a hold is sold only to an order whose user has paid what it comes to, once |
| `PaidFor.StepKeepsInv` | services/payment/internal/adapter/out/grpcclient/order.go:36-72 | every step of either service keeps what each relies on of the other: orders are not repriced, successes stay, and attempts are for what their orders come to |
| `PaidFor.WaitingOrderCanBePaid` | services/payment/internal/app/payment_service.go:84-197 | an order of more than nothing that waits for its money and has no unresolved attempt can be paid for by a new call |
| `PaidFor.InitiateNowIsARunOfBoth` | services/payment/internal/app/payment_service.go:84-197 | a payment call that is told the truth about its order is a run of that composed machine |
| `Charging.PaymentService.InitiatePayment` | services/payment/internal/app/payment_service.go:84-197 | the call, statement by statement, with the transaction failing, its commit landing unseen, and a provider that does not answer |
| `ChargingAnswers.RetriesAreAnswered` | services/payment/internal/app/payment_service.go:390-407 | a call whose key was used before is answered from its claim, and asks for no money |
| `ChargingAnswers.ChargesIff` | services/payment/internal/app/payment_service.go:105-189 | money is asked for if and only if the key is unused, the order payable, its total positive in some currency, every earlier attempt for it failed, and the commit landed and was heard of; then once, for that order and total |
| `ChargingAnswers.UnstartedChangesNothing` | services/payment/internal/app/payment_service.go:119-123 | a call that may not start, or whose transaction failed, gets an error and leaves everything as it was |
| `ChargingAnswers.StartedIsOnRecord` | services/payment/internal/app/payment_service.go:130-197 | one that starts leaves one attempt for that order and total under its key, in the status the provider's answer gives it, and is answered with it if and only if it heard of its commit and got a usable answer |
| `ChargingRuns.InitiateNowIsARun` | services/payment/internal/app/payment_service.go:84-197 | the call is a run of the charging machine from any state: same attempts, same requests for money, same answer |
| `Charging.PaymentService.Record` | services/payment/internal/app/payment_service.go:137-158 | the transaction before the charge |
| `Charging.PaymentService.Settle` | services/payment/internal/app/payment_service.go:316-348 | the transaction after it: a refused answer leaves the stored attempt as it was |
| `Sessions.ChainsAreSound` | services/identity/internal/domain/refresh_token.go:128-158 | a chain has at most one live link, no link is exchanged twice or at or after its chain's end, every link has its head's user and end |
| `Sessions.OverForGood` | services/identity/internal/app/session_service.go:212-229 | a chain with no live link never has one again, whatever was under way when its last one ended |
| `Sessions.RevocationEndsTheChain` | services/identity/db/queries/refresh_tokens.sql:31-40 | whatever others do meanwhile, other revocations included, a revocation ends its chain, for good, if no rotation of the chain commits between its statement's beginning and its end |
| `Sessions.RevocationEndsTheChainIff` | services/identity/db/queries/refresh_tokens.sql:31-40 | if no other revocation of the chain takes effect in between, that is also necessary: the chain is over if and only if no rotation of it commits in between |
| `Sessions.RevocationEndsWhatItSaw` | services/identity/db/queries/refresh_tokens.sql:31-40 | with other revocations in between or not: the chain is over if and only if no link committed since the statement's beginning is live at its end |
| `Sessions.ReuseSetsOut` | services/identity/internal/app/session_service.go:134-229 | presenting a spent link before its chain's end, or logging out with any link, goes on to such a revocation of that chain, whatever others do first |
| `Sessions.ReuseCanMissARotation` | services/identity/internal/app/session_service.go:284-302 | a run in which a rotation under way leaves a live link behind a revocation that reported success |
| `Sessions.LosingARaceIsReuse` | services/identity/internal/app/session_service.go:178-202 | of two refreshes that read one live link the second exchanges nothing and goes on to end the chain |
| `Sessions.RefreshNowIsItsSteps` | services/identity/internal/app/session_service.go:134-210 | an uninterrupted refresh is the machine's steps in a row |
| `Sessions.RefreshToken.Rotate` | services/identity/internal/domain/refresh_token.go:139-158 | from the chain's end on expired, before it revoked if spent; else the successor inherits user, chain and end, and this link is spent; a refusal changes nothing |
| `Sessions.RefreshToken.Revoke` | services/identity/internal/domain/refresh_token.go:165-171 | the first revocation's time stands |
| `Sessions.SessionService.Refresh` | services/identity/internal/app/session_service.go:134-210 | the use case run on its own |
| `Sessions.RefreshAnswers` | services/identity/internal/app/session_service.go:134-210 | an issued link: from its chain's end on expired and nothing changes; before it, a live one is exchanged for a new one and a spent one ends every live link of its chain, and no other |
| `Sessions.UnissuedIsRefused` | services/identity/internal/app/session_service.go:134-160 | a token nobody issued is refused and changes nothing |
| `Sessions.SessionService.Logout` | services/identity/internal/app/session_service.go:212-229 | ends the whole chain, or nothing if nobody issued it |
| `Sessions.SessionService.Issue` | services/identity/internal/app/session_service.go:236-258 | a new chain of one live link |
| `Fingerprint.SameBytesSameRequest` | services/order/internal/app/order_service.go:350-374 | the hashed bytes are equal exactly for the same user and the same multiset of lines |
| `Fingerprint.SamePaymentRequest` | services/payment/internal/app/payment_service.go:448-456 | the hashed bytes are equal exactly for the same user, order and method |
| `Fingerprint.HashedBytes` | services/order/internal/app/order_service.go:359-374 | the loops that list, sort and write the lines |
| `Paging.WalkMissesNothing` | services/order/internal/app/order_service.go:293-328 | whatever is inserted between calls, a walk to the end returns every order there at its start, once, newest first |
| `Paging.PagesAreTheList` | services/order/db/queries/orders.sql:38-55 | on a still table the pages concatenate to the list and the walk ends within the calls its pages need |
| `Paging.ListOrders` | services/order/internal/app/order_service.go:305-327 | asking for one row more tells whether there is a next page |
| `Paging.DecodeUndoesEncode` | services/order/internal/app/cursor.go:25-66 | a token issued for a row is read back as that row |
| `Paging.DecodeIs` | services/order/internal/app/cursor.go:39-66 | the empty token and no other asks for the first page; one asks for the rows after a key if and only if what it armours is a time without the separator, the separator and an id; every other is refused |
| `Backoff.CeilingIsIdeal` | pkg/grpcx/client/retry.go:101-116 | if base times cap fits in int64, shift and guards give doubling with a cap for every attempt number |
| `Backoff.CeilingIsIdealIff` | pkg/grpcx/client/retry.go:104-113 | for every int64 configuration: exactly when they do |
| `Backoff.OverflowCanBeMissed` | pkg/grpcx/client/retry.go:105-110 | a configuration where they do not |
| `Backoff.CeilingIsCapped` | pkg/grpcx/client/retry.go:107-113 | no wait exceeds the cap, and only a cap of nothing waits for nothing |
| `Backoff.RetryUnary` | pkg/grpcx/client/retry.go:32-98 | a call is made again exactly while the answer is Unavailable or DeadlineExceeded, attempts are left and the wait fits; the last one's code and reply are handed back, with nothing of earlier ones; a call that may not be repeated is made once |
| `Backoff.IdempotentIff` | pkg/grpcx/client/retry.go:72-90 | a call may be repeated if and only if its full name or what follows the last slash is listed, or the latter starts with one of the six prefixes |
| `Backoff.NameIs` | pkg/grpcx/client/retry.go:78 | the name that decides about retries is what follows the last slash |
| `Transactions.AllOrNothing` | pkg/txmanager/txmanager.go:41-79 | a use case that reads, branches and writes as it likes and passes its errors on reports success exactly if no check it came to failed and the commit landed; the store is then what its writes make of it in order, and otherwise what it was |
| `Transactions.NestedDoIsInlined` | pkg/txmanager/txmanager.go:45-52 | a nested Do is its statements written in its place |
| `Transactions.IgnoredFailureIsCommitted` | pkg/txmanager/txmanager.go:45-52 | a caller that ignores a nested failure commits what the failed block wrote |
| `Transactions.Manager.Do` | pkg/txmanager/txmanager.go:49-79 | joining, committing and rolling back against the specification |

## Left out

- Identifiers are numbers, so the parsing of UUIDs and the refusal of empty ids are not modelled; neither are SKU normalisation, page-size parsing and money parsing.
- SweepLocks.PairDeadlocksIffFirstsDiffer: is about two transactions; cycles through three or more that include a sweep of several reservations, or of one that is being settled, are not covered (without such a sweep there are none).
- Which rows a sweeper or reaper claims is the database's choice (SKIP LOCKED), so the batches are any orders at all, and any claimable reservations.
- One consumer group and one relay are modelled. The payments group is reduced to payment events arriving any number of times and in any order: in `CheckoutSaga` for any order at all, in `PaidFor` only those the payment service published.
- A partition is a key modulo the number of partitions, in place of the broker's hash.
- The delivery machine takes a dead letter as delivered once its publish returns.
- Rows that one UPDATE of a chain comes to are taken to be ended together at its end, once none of those it saw live is locked.
- SHA-256, base64url, RFC 3339 formatting and token generation are left abstract: byte strings, pairs of inverse functions, and fresh numbers.
- Panics, context deadlines, connection loss inside a transaction and failed rollbacks are seen only as a transaction that did not commit.
- GetOrder, GetPayment and the batch reads, the catalog service, gRPC and HTTP handlers, metrics, logging, circuit breaking, configuration and the provider are not part of this model.
- Nothing is claimed about time: that a payment window ends before a hold does, or that a sweep comes round.
