# Verified model of the exchange's money path

A Dafny model of a spot exchange back end: the in-memory matching engine, the order and account ledger in
the database, the settlement consumer between them, crash recovery, and the protocols around them (leader
election with fencing tokens, row locks, the transactional outbox, the rate limiter).

`dafny verify dfyconfig.toml` verifies everything.

## How it is put together

Code that changes things step by step is modelled as classes and loops (`Engine`, `Repository`,
`OrderService`, `AccountService`, `Subscriber`, `MatchingSubscriber`, `Aggregation`, `Manager`, `Recovery`,
`Election`, `Outbox`, `RateLimiter`). Each of their methods is proved against a pure function of the old
state (`Matching.Process`, `Placement.Place`, `Settlement.Deliver`, ...), and the properties are proved about
those functions and about state machines built from them.

- **Engine.** `Matching` holds the price-time rules, `Engine` the loops over shared order objects, `Manager` the
  engines by symbol, none of which shares an order with another, `BestExecution`, `BookInvariant` and `Estimate`
  what follows from the rules.
- **Ledger.** `Accounts`, `Placement` and `Settlement` are the transactions as functions of the database; `Admission` says
  when placing succeeds, and what it writes and locks, on the request and the tables alone;
  `Conservation`, `Ledger`, `Reservation` and `Grid` say what one transaction does to money, orders and
  reservations.
- **Link.** `OrderFlow` and `Streams` relate the orders table, the queued events and the live book.
- **Whole system.** `Exchange` is a state machine with users registering, orders placed singly and in
  batches, engines matching and canceling, the settlement topic consumed per symbol, any consumed event
  redelivered at any time, new leaders taking over with books restored from the database, and superseded leaders
  still publishing under their old tokens. `Runs`, `Holdings`, `Funds`, `Drift` and `Slack` state what holds in every
  reachable state, over any number of terms of leadership; `History` traces every row to the action that placed it.
  `Recovery` is about restored books, `Takeover` about what a
  change of leader keeps and what it loses; `Witnesses` holds the runs in which something does not hold, and
  `MarketOrder` one in which a market order goes all the way.
- **Protocols.** `RowLocks`, `Election`, `Fencing`, `Leases`, `Outbox`, `RateLimiter`.

## Hypotheses

They are the `requires` clauses and `Enabled` predicates of the members below; none of them is hidden.

- Each placed order reaches its engine once and with a fresh id; trade ids are fresh.
- No two live processes share an instance id. A restarted one may have its predecessor's.
- `Exchange` runs over any number of terms. Engines stamp a token the fence lets through; a takeover has a higher
  token and a query that succeeds, comes when every open limit order has reached its engine, and what is queued then
  carries an older positive token (`Exchange.CanTakeOver`). Events stamped 0 that are queued at a takeover are outside
  the run theorems; `Takeover.OverfillIff` and `Witnesses.LateEventOverfills` say what they do. In the machine an
  event dropped by the fence and one that its superseded engine has not published yet are the same thing.
- Cached order book snapshots hold non-negative prices and quantities; they may be arbitrarily stale.
- The reservation invariant assumes amounts in lots and ticks whose product is on the 1e-8 grid, and market
  buys that cost no more than was locked for them. `Reservation.SettleBackedIff` says exactly when the
  guard and the invariant hold without them, and `Witnesses.RoundingCanMiss` is a run in which they do not.
- That recovery rebuilds the live book is stated for quiescent symbols: all events consumed, all orders handed to the
  engine. `Takeover.TakeoverCrossedIff` says what a takeover with events still queued restores, and
  `Takeover.HandedAgain` what happens to an order that was still on its way.
- Request times of one rate limiter key do not decrease (`RateLimiter.DisorderBreaksBound` shows why).

## What was found on the way

- Batch placement never looks at the list of allowed symbols, single placement does
  (`Placement.BatchAgreesIff`); a batch may sell BTC for ETH (`Witnesses.ForbiddenBatch`).
- `GetActiveOrders` sorts by creation time in milliseconds only. Recovery rebuilds the book for every way the
  database may order ties exactly when creation times strictly increase within each price level
  (`Takeover.RecoveryIff`). A batch gives all its orders one creation time, so its orders of one price always tie
  (`Witnesses.BatchTies`).
- Events still queued when another instance takes over are dropped by the fence (`Streams.SkippedIff`). Rows, ledger and
  conservation survive that (`Exchange.TakeoverInv`), but the restored book is then crossed exactly when the live one
  was or an order that one of them was to close crosses one resting on the other side (`Takeover.TakeoverCrossedIff`,
  `Witnesses.TakeoverCrosses`). A limit taker rests in the restored book and can be canceled
  (`Takeover.LimitCanBeCanceled`). A market taker is stranded: it stays NEW with all it reserved locked, and nothing in
  any continuation fills, closes or cancels it (`Takeover.DroppedMarketStranded`, `Takeover.StrandedForever`).
- Settlement never looks at the status of a maker. A settlement of an earlier term that carries no token can therefore
  commit onto an order that the new term has already FILLED; it becomes PARTIALLY_FILLED with more filled than was
  asked for (`Takeover.OverfillIff`, `Takeover.FilledMakerOverfills`, `Witnesses.LateEventOverfills`).
- A takeover restores NEW orders whose order.placed message is still to be consumed. When it arrives, the engine
  matches the order again next to its restored copy (`Takeover.HandedAgain`).
- Rounding to eight places happens only in settlement. Off the grid, an unlock can exceed what was locked, the
  guarded update then matches no row, and the funds stay locked (`Witnesses.RoundingCanMiss`). Over a run, what is
  locked beyond the reservations is exactly the sum of the missed unlocks less the drifts (`Slack.ExcessIsSlip`).
- The token is read when the event is built, after the gate. An engine that is being stopped in between stamps
  0, and 0 is let through: an event matched under token 1 can be committed after token 2 was issued
  (`Fencing.ZeroTokenBypass`). This is the only way an event matched under an older token gets past a newer one
  (`Fencing.StampIff`, `Fencing.StaleCommitIff`), because the losing callback waits for the order at work before
  the process may campaign again.
- The rate limiter takes its times from the gateways' own clocks. When one of them is behind, the time in between is
  counted twice and more requests pass than capacity and rate allow (`RateLimiter.DisorderBreaksBound`).
- Redelivered settlements that made no trade are absorbed by the status of the taker, not by a trade id.

## Model

| member | source | states |
|---|---|---|
| `Engine.MatchingEngine.Process` | internal/matching/engine/engine.go:39-59 | trades, book and remaining quantity are those of the recursive price-time specification |
| `Engine.MatchingEngine.MatchBuyOrder` | internal/matching/engine/engine.go:62-119 | the buying loop computes the specification's fill of the asks and leaves the bids alone |
| `Engine.MatchingEngine.MatchSellOrder` | internal/matching/engine/engine.go:122-179 | the selling loop computes the same fill of the bids |
| `Engine.MatchingEngine.Cancel` | internal/matching/engine/engine.go:182-186 | removes the first order with the id on that side and reports whether there was one |
| `Engine.MatchingEngine.RestoreOrder` | internal/matching/engine/engine.go:32-36 | puts an order into the book without matching it |
| `Engine.MatchingEngine.GetOrderBookSnapshot` | internal/matching/engine/engine.go:190-223 | on each side price and quantity of the first `depth` resting orders, in their order, or of all of them |
| `Engine.OrderBook.AddOrder` | internal/matching/engine/orderbook.go:43-57 | append and stable sort of one side, the other side untouched |
| `Engine.OrderBook.RemoveOrder` | internal/matching/engine/orderbook.go:92-111 | splices out the first order with the id |
| `Engine.OrderBook.EstimateMarketBuyRequiredFunds` | internal/matching/engine/orderbook.go:114-136 | equals the level-by-level estimate on the full ask side |
| `Sorting.StableSortCorrect` | internal/matching/engine/orderbook.go:43-57 | the sort used on a side is sorted, a permutation, and keeps the order of equal prices |
| `Sorting.StableSortUnique` | internal/matching/engine/orderbook.go:43-57 | sortedness and stability determine the result, so any stable sort computes it |
| `Matching.FillHasShape` | internal/matching/engine/engine.go:62-179 | a fill consumes a prefix of the side at the makers' prices, all but the last completely, and stops only for an empty side, a worse price, its own user, or nothing left |
| `Matching.FillMirror` | internal/matching/engine/engine.go:62-179 | selling is buying with all prices negated and sides swapped |
| `BestExecution.BestExecutionHolds` | internal/matching/engine/engine.go:62-179 | no other way of taking the same quantity from the resting orders is cheaper for a buyer or yields more for a seller |
| `BookInvariant.ProcessTidy` | internal/matching/engine/engine.go:39-59 | a step keeps price-time order, positive quantities and unique ids, never leaves the book crossed, and pairs no user with itself |
| `BookInvariant.EveryRunSound` | internal/matching/engine/engine.go:39-186 | that holds after every sequence of new orders and cancels from an empty book |
| `Estimate.EstimateFromLevels` | internal/order/service.go:443-458 | the loop returns the cost of the quantity over the levels, or nothing when they do not reach |
| `Estimate.ShownSuffices` | internal/matching/engine/engine.go:190-223 | an estimate on a snapshot succeeds exactly when the first orders of the side, to the given depth, hold the quantity |
| `Estimate.SnapshotAgrees` | internal/order/service.go:430-458 | an estimate that succeeds on a truncated snapshot equals the full-book estimate |
| `Estimate.RequiredIff` | internal/matching/engine/orderbook.go:114-136 | the estimate succeeds exactly when the levels hold the quantity |
| `Estimate.EstimateCoversFill` | internal/matching/engine/engine.go:62-119 | processing the market buy on that book costs exactly the estimate, or less when the self-trade stop cuts it short |
| `Money.RoundError` | internal/order/event_subscribers.go:435-473 | rounding to eight places moves an amount by at most half a unit |
| `Money.RoundTies` | internal/order/event_subscribers.go:435-473 | halfway amounts of either sign go away from zero |
| `Money.RoundExact` | internal/order/event_subscribers.go:435-473 | it leaves exactly the amounts on the grid alone |
| `Money.RoundOnGrid` | internal/order/service.go:110-112 | rounded amounts are on the grid, rounding twice is rounding once |
| `Repository.PostgresRepository.LockFunds` | internal/repository/account_repository.go:51-66 | moves balance to locked exactly when the account exists and the balance suffices |
| `Repository.PostgresRepository.UnlockFunds` | internal/repository/account_repository.go:120-129 | moves locked to balance, or silently nothing when too little is locked |
| `Repository.PostgresRepository.UpdateBalance` | internal/repository/account_repository.go:40-49 | adds to the balance, failing on the CHECK |
| `Repository.PostgresRepository.CreateAccount` | internal/repository/account_repository.go:27-38 | an existing account is left alone, a negative balance is refused |
| `Repository.PostgresRepository.CreateUser` | internal/repository/user_repository.go:11-16 | refuses a known user |
| `Repository.PostgresRepository.GetOrderForUpdate` | internal/repository/order_repository.go:68-77 | returns and locks the row |
| `Repository.PostgresRepository.UpdateOrder` | internal/repository/order_repository.go:79-89 | overwrites filled quantity and status only, and locks the row |
| `Repository.PostgresRepository.InsertOutbox` | internal/infrastructure/outbox/repository.go:48-101 | appends the messages of the running transaction |
| `Repository.PostgresRepository.CreateTrade` | internal/repository/trade_repository.go:14-24 | fails on a known id |
| `Repository.PostgresRepository.ValidateFencingTokenTx` | internal/repository/postgres.go:55-85 | valid when not positive, without a row, or not below the row's token; share-locks the row |
| `OrderService.Service.CalculateLockAmount` | internal/order/service.go:411-441 | account and amount to lock, for every side and type, or failure |
| `OrderService.Service.PlaceOrder` | internal/order/service.go:104-182 | locks funds, creates the order and writes its message with the order's terms, or fails and changes nothing; row locks ascend |
| `OrderService.Service.BatchPlaceOrders` | internal/order/service.go:215-298 | the batch rule on the whole database with one message per order, or nothing; row locks ascend |
| `OrderService.Service.BatchLockFunds` | internal/repository/account_repository.go:68-118 | succeeds exactly when every account bears its sum, locking in user and currency order |
| `OrderService.ExchangeSort` | internal/repository/account_repository.go:76-103 | the nested-loop key sort yields a sorted permutation |
| `OrderService.Service.CancelOrder` | internal/order/service.go:318-373 | writes a message to the engine exactly for an existing, own, not yet closed order, and changes no table besides |
| `AccountService.Service.RegisterAnonymousUser` | internal/order/account_service.go:14-72 | creates a new user with its three test accounts, or refuses a known one |
| `AccountService.Service.RechargeTestUser` | internal/order/account_service.go:79-91 | tops up two accounts, locking them in order |
| `Admission.PlaceIff` | internal/order/service.go:104-182 | an order is placed exactly when its rounded terms are positive, its symbol is one of the two, its id is new, and the account it is paid from holds the quantity, price times quantity, or 1.05 times what the cached asks charge |
| `Admission.PlaceWrites` | internal/order/service.go:128-147 | the database then has one NEW row with the rounded terms, the time and that amount, which has moved from balance to locked |
| `Admission.BatchIff` | internal/order/service.go:215-298 | a batch is placed exactly when all its requests make sense, the ids are new and different, and every account holds what the batch takes from it |
| `Admission.BatchWrites` | internal/order/service.go:215-298 | the database then has all its rows with one time, and every account's sum moved to locked |
| `Admission.RequiredIsCost` | internal/order/service.go:443-458 | the estimate succeeds exactly when the levels hold the quantity, and is what its parts cost level by level |
| `Admission.MarketBuyLocks` | internal/order/service.go:411-428 | a market buy placed on the snapshot of an ask side locks at least what matching it there costs, and 1.05 times that when it meets no own order; its settlement is affordable |
| `Admission.BatchBuyLocks` | internal/order/service.go:239-252 | the same for each market buy of a batch |
| `MarketOrder.MarketOrderSettles` | internal/order/event_subscribers.go:322-390 | a run that places, matches and settles a market buy: 1.05 locked, 1 paid, the rest given back |
| `Placement.PlacedOnGrid` | internal/order/service.go:104-182 | a placed order is new, positive, on the grid and within half a unit of what was asked for |
| `Placement.BatchAdmits` | internal/order/service.go:215-316 | a batch does what admitting its orders one by one does, or nothing |
| `Placement.BatchIsSequential` | internal/order/service.go:215-316 | for allowed symbols and one set of snapshots a batch succeeds exactly when placing one by one would, with the same database |
| `Placement.BatchAgreesIff` | internal/order/service.go:104-316 | in general the two agree exactly when all symbols are allowed, or an order cannot be prepared, or an account cannot bear its locks, or an id is taken |
| `Witnesses.ForbiddenBatch` | internal/order/service.go:215-316 | a reachable database and a batch that goes through although placing its order alone does not |
| `Aggregation.AggregateAndSort` | internal/order/event_subscribers.go:475-505 | one entry per account with a net effect, holding its sums, in strictly increasing key order |
| `Accounts.AggregateUnique` | internal/order/event_subscribers.go:475-505 | the result does not depend on map iteration order |
| `Accounts.AggregateSums` | internal/order/event_subscribers.go:475-505 | amounts and unlocks per account are preserved |
| `Accounts.AggregateRefinesRaw` | internal/order/event_subscribers.go:378-390 | with covered unlocks, applying the aggregate equals applying the raw movements one at a time |
| `Accounts.ChecksIff` | sql/schema.sql:23-24 | the CHECK constraints pass exactly when no netted balance is negative |
| `Settlement.AggregateIsNet` | internal/order/event_subscribers.go:378-390 | the statements of the aggregate net every account |
| `Subscriber.EventSubscriber.FinishTakerRow` | internal/order/event_subscribers.go:322-353 | final status and refund of the taker in all cases |
| `Subscriber.EventSubscriber.ApplyTrades` | internal/order/event_subscribers.go:299-321 | the loop over trades fills makers and taker and collects four movements per trade |
| `Subscriber.EventSubscriber.ExecuteSettlementTx` | internal/order/event_subscribers.go:218-422 | the whole transaction: skipped, committed or rolled back as specified, row locks ascending |
| `Subscriber.EventSubscriber.HandleSettlementRequested` | internal/order/event_subscribers.go:98-137 | the cheap checks before the transaction change nothing about its outcome |
| `Subscriber.EventSubscriber.HandleOrderCanceled` | internal/order/event_subscribers.go:139-216 | releases the rest of the reservation and closes the row, or skips |
| `Subscriber.EventSubscriber.HandleEvents` | internal/order/event_subscribers.go:63-95 | one message does to the database what its delivery is specified to do |
| `Subscriber.LockedSuffices` | internal/order/event_subscribers.go:251-321 | settling the locked rows and writing them back settles the table |
| `MatchingSubscriber.Subscriber.HandleOrderPlaced` | internal/matching/event_subscribers.go:103-176 | matches in the engine of the order's symbol, leaves all others alone, and publishes one settlement exactly when there was a trade, a market order, or nothing left, with the trades made and the token held when it is built |
| `MatchingSubscriber.Subscriber.HandleOrderCancelRequested` | internal/matching/event_subscribers.go:179-221 | announces a cancel exactly when the book held the order, with the token held then |
| `MatchingSubscriber.Subscriber.HandleEvents` | internal/matching/event_subscribers.go:42-85 | without a token nothing is matched or published; with one, book and trade ids of the message's symbol and both streams of events follow the message, and no other symbol's do |
| `OrderFlow.MatchLinked` | internal/matching/event_subscribers.go:103-135 | the event an engine step publishes is valid for the rows, and applying it brings rows and book together again |
| `OrderFlow.CancelLinked` | internal/matching/event_subscribers.go:179-200 | the same for a cancel |
| `OrderFlow.RowsForward` | internal/order/event_subscribers.go:299-376 | a valid event keeps rows well formed and statuses moving forward |
| `Streams.DeliverValid` | internal/order/event_subscribers.go:235-422 | an event whose rows are ready is never skipped, and aborts only for a negative balance |
| `Streams.PassedOverIff` | internal/order/event_subscribers.go:101-297 | for any tables, the events that pass without effect: stale tokens, missing orders, takers that are not NEW, known first trades, closed orders |
| `Streams.SkippedIff` | internal/order/event_subscribers.go:235-249 | an event whose rows are ready is passed over exactly when its token is behind the fence |
| `Exchange.StepInv` | internal/order/event_subscribers.go:63-422 | every step, takeovers included, keeps: book equals rows after the queue, queue valid, ledger balanced, delivered and dropped events without effect, CHECKs met |
| `Exchange.HeadDelivered` | internal/order/event_subscribers.go:235-297 | in a reachable state the next event of a symbol is never skipped |
| `Runs.OrderLedger` | scripts/audit/audit_test.go:65-92 | in every reachable state an order's filled quantity is the sum of the trade rows naming it, at most its quantity, and its status says exactly how far that got it |
| `Runs.RunForward` | internal/order/event_subscribers.go:169-191 | no order returns to NEW, leaves FILLED or CANCELED, or changes its terms |
| `Runs.ReplaysAbsorbed` | internal/order/event_subscribers.go:101-130 | leaving all redeliveries out of a run ends in the very same state |
| `History.CreatedByPlacing` | internal/order/service.go:104-298 | every order of a reachable state was created by one placing action of the run and carries its terms, rounded, and its time |
| `Conservation.SettleConserves` | internal/order/event_subscribers.go:355-390 | a settlement conserves a currency exactly when what it addresses to missing accounts cancels out, for any prices, rounding and unlock misses |
| `Conservation.ConfirmCancelConserves` | internal/order/event_subscribers.go:139-216 | confirming a cancel conserves every currency |
| `Conservation.PlacementConserves` | internal/order/service.go:104-316 | placing, single or batch, conserves every currency |
| `Holdings.AccountsFollowTrades` | internal/order/event_subscribers.go:435-473 | in every reachable state every account holds exactly what it was granted plus what the trade rows moved, goods from seller to buyer and money back |
| `Runs.MoneyConserved` | internal/order/account_service.go:14-91 | in every reachable state all accounts together hold exactly what registration and recharge handed out |
| `Reservation.SettleReserves` | internal/order/event_subscribers.go:299-390 | on every account a settlement shrinks the reservations of open orders by what it unlocks, up to the drift from rounding and from market buys beyond their lock |
| `Reservation.SettleBacked` | internal/order/event_subscribers.go:299-390 | on exact amounts every unlock is covered, no CHECK fails, and locked funds are the reservations again |
| `Reservation.SettleBackedIff` | internal/order/event_subscribers.go:435-473 | in general the unlock is covered exactly when the drift is at most what stays reserved, and locked funds are the reservations again exactly when the drift is zero, or when the guard missed and nothing was to be released |
| `Reservation.DriftBound` | internal/order/event_subscribers.go:435-473 | the drift on one account is at most half a unit per trade plus half a unit |
| `Reservation.SettleBackedIffExact` | internal/repository/account_repository.go:120-129 | where the settlement changes what is reserved, it is the zero drift alone that decides |
| `Witnesses.RoundingCanMiss` | internal/repository/account_repository.go:120-129 | a run of two users and two orders after which nothing is open or reserved and the buyer still has funds locked |
| `Reservation.CancelBacked` | internal/order/event_subscribers.go:174-191 | a cancel finds its reservation locked and releases exactly it |
| `Reservation.AdmitBacked` | internal/order/service.go:139-147 | placing locks exactly what the new order reserves |
| `Grid.SettlesOnGrid` | internal/order/event_subscribers.go:340-473 | whatever prices and quantities are, every movement and every unlock of a settlement has at most eight decimal places |
| `Grid.GridIsExact` | internal/order/event_subscribers.go:435-473 | orders in lots and ticks settle without any rounding |
| `Funds.ReservationInvariant` | internal/order/event_subscribers.go:322-390 | in every state of every careful run each account's locked equals the sum its open orders reserve, and the next delivery commits |
| `Funds.HeadBacked` | internal/repository/account_repository.go:120-129 | the unlock guard never misses and no CHECK fires when the next event is consumed |
| `Slack.ExcessIsSlip` | internal/repository/account_repository.go:120-129 | in every reachable state and on every account, what is locked beyond the reservations of open orders is the sum of all unlocks that missed less the sum of all drifts |
| `Drift.LifetimeDrift` | internal/order/event_subscribers.go:340-361 | all unlocks a run issues for a limit buy, by trades, refund or cancel, miss price times the quantity released by at most half a unit per trade and one half for a cancel, and by nothing on the grid |
| `Recovery.GetActiveOrders` | internal/repository/order_repository.go:118-146 | the resting limit orders by creation time |
| `Recovery.RestoreEngineSnapshot` | internal/matching/initializer.go:15-50 | the loop puts the query result row by row on top of what every symbol's book holds; a failed query leaves the books alone |
| `Recovery.BecomeLeader` | cmd/matching-engine/main.go:108-130 | after the reset every book is the restored one, or empty when the query failed |
| `Manager.EngineManager.GetEngine` | internal/matching/engine/manager.go:20-42 | one engine per symbol, created when asked for, with every book as it was |
| `Manager.EngineManager.Reset` | internal/matching/engine/manager.go:57-61 | drops all books |
| `Takeover.RecoveryIff` | internal/matching/initializer.go:15-50 | in every reachable quiescent state, restoring any query result rebuilds the live book order for order exactly when creation times strictly increase within each price level |
| `Takeover.ClockedRecovery` | internal/repository/order_repository.go:118-126 | creation times following the arrival order are enough |
| `History.RecoveredFromRun` | internal/repository/order_repository.go:118-146 | from the run alone: when placing times increase, no batch has two orders of one price level and engines receive orders in the sequence of placing, every query result of a quiescent state restores the live book order for order |
| `Witnesses.BatchTies` | internal/order/service.go:215-316 | a run of one batch that ends quiescent with two orders of one price and one creation time, so not every query result restores the book |
| `Exchange.TakeoverInv` | cmd/matching-engine/main.go:108-130 | a takeover with whatever older events are queued and whatever the query returns keeps the whole invariant |
| `Takeover.QuietTakeover` | cmd/matching-engine/main.go:108-130 | at a quiet moment, with creation times that tell orders apart, it changes no book |
| `Takeover.UncrossedUntilTakeover` | internal/matching/engine/engine.go:39-59 | without a takeover no book of any run is ever crossed |
| `Takeover.TakeoverCrossedIff` | internal/matching/initializer.go:15-50 | with events queued, the restored book is crossed exactly when the live one was or an order the queue was to close crosses a resting one |
| `Takeover.QueuedTradeCrosses` | internal/matching/initializer.go:15-50 | a queued settlement of a limit order with a trade always leaves it crossed |
| `Witnesses.TakeoverCrosses` | internal/matching/initializer.go:15-50 | a run under token 1 that ends so, with the live book uncrossed, the event queued and skipped after the takeover |
| `Takeover.LimitCanBeCanceled` | internal/matching/event_subscribers.go:179-200 | after any takeover every open limit order is in its book and its cancel is announced |
| `Takeover.DroppedMarketStranded` | internal/order/event_subscribers.go:235-249 | dropping the settlement of a market order strands it |
| `Takeover.StrandedForever` | internal/order/event_subscribers.go:235-297 | a stranded market order never changes again in any continuation, further takeovers included, and keeps its whole reservation |
| `Takeover.OverfillIff` | internal/order/event_subscribers.go:299-321 | a settlement fills no order beyond its quantity exactly when every maker has room for its trade, whatever the makers' status |
| `Takeover.FilledMakerOverfills` | internal/order/event_subscribers.go:299-321 | a trade on a FILLED maker makes it PARTIALLY_FILLED with more filled than it asked for |
| `Witnesses.LateEventOverfills` | internal/order/event_subscribers.go:235-321 | a run over two terms after which the first term's settlement, carrying no token, commits and does that |
| `Takeover.HandedAgain` | internal/matching/initializer.go:15-50 | an order restored before its order.placed message arrives is offered by the book in full and once more with what is left of it |
| `RowLocks.NoWaitCycle` | internal/repository/account_repository.go:68-118 | no reachable state of any number of transactions locking in the global order contains a circle of waits |
| `RowLocks.LocksExclude` | internal/repository/order_repository.go:68-77 | in every reachable state a row locked exclusively is locked by nobody else |
| `RowLocks.SomeoneProceeds` | internal/repository/account_repository.go:68-118 | so some transaction always waits for nobody |
| `RowLocks.CodedNeverDeadlocks` | internal/order/event_subscribers.go:235-281 | transactions that lock ascending rows with the leader row shared, as the transaction methods ensure of theirs, and elections that take the leader row to themselves never wait in a circle |
| `Election.LockRepository.AcquireLock` | internal/infrastructure/election/repository.go:31-57 | takes the lease when there is none or it has run out, with the next token |
| `Election.LockRepository.ExtendLease` | internal/infrastructure/election/repository.go:61-77 | succeeds exactly for the row's leader and token |
| `Election.LockRepository.ReleaseLock` | internal/infrastructure/election/repository.go:82-90 | lets the leader's own lease run out, keeping the token |
| `Election.Elector.Tick` | internal/infrastructure/election/elector.go:95-146 | row, belief and callbacks after one tick, database faults included |
| `Election.Elector.Shutdown` | internal/infrastructure/election/elector.go:74-88 | a leader gives its lease back and steps down |
| `Leases.TickIff` | internal/infrastructure/election/elector.go:95-146 | row and belief after a tick, case by case on the row's leader, token and expiry: an unexpired lease stays with its leader |
| `Leases.CampaignIff` | internal/infrastructure/election/repository.go:31-57 | a campaign wins the next token exactly when there is no lease or it has run out, and otherwise changes nothing |
| `Leases.RenewalProtects` | internal/infrastructure/election/repository.go:61-77 | a renewal succeeds exactly for the row's leader and token, and keeps both through any run whose campaigns are not later than its expiry |
| `Leases.ExpiredIsTaken` | internal/infrastructure/election/repository.go:31-57 | a lease nobody renews goes to the first campaign after its expiry |
| `Leases.ReleasedIsTaken` | internal/infrastructure/election/repository.go:82-90 | a released lease goes to the next campaign, whatever happens in between |
| `Leases.DeposedStops` | internal/infrastructure/election/elector.go:100-118 | a superseded leader that tries to renew changes nothing, steps down and lets no further order in |
| `Fencing.TokensIncrease` | internal/infrastructure/election/repository.go:31-57 | the row's token never decreases and a won campaign gets a token nobody had |
| `Fencing.OneCurrentLeader` | internal/infrastructure/election/elector.go:95-146 | at most one instance that believes it leads holds the current token |
| `Fencing.SupersededIsPowerless` | internal/infrastructure/election/repository.go:61-90 | a superseded instance can neither extend nor release, now or later |
| `Fencing.ExtendsIffCurrent` | internal/infrastructure/election/repository.go:61-77 | a believing leader extends exactly while its token is current |
| `Fencing.AppliedInOrder` | internal/repository/postgres.go:55-85 | an event applied with a token was matched under one no older than that of anything applied before, and a validated one stays current until it commits |
| `Fencing.ZombieRejected` | internal/order/event_subscribers.go:235-249 | once superseded, a positive token is never validated again |
| `Fencing.StampIff` | cmd/matching-engine/main.go:172-191 | an engine stamps the token it let the order in under, or 0, and 0 exactly while its process is being stopped |
| `Fencing.BypassIff` | internal/repository/postgres.go:55-85 | a published event is let through exactly when it was matched under the current token or carries none |
| `Fencing.StaleCommitIff` | internal/order/event_subscribers.go:235-249 | an event matched under an older token can still be committed exactly when it carries none |
| `Fencing.ZeroTokenBypass` | internal/order/event_subscribers.go:235-249 | a run in which an event matched under token 1 is committed after token 2 was issued |
| `Fencing.TickIsTwoSteps` | internal/infrastructure/election/elector.go:95-146 | the elector's tick is a statement and a reply of the cluster |
| `Outbox.Worker.Process` | internal/infrastructure/outbox/worker.go:68-119 | publishes a fetched batch, counts failures and deletes exactly the acknowledged ones; when a count or the delete fails, the table is rolled back and what was sent by then is sent |
| `Outbox.OutboxRepository.FetchPending` | internal/infrastructure/outbox/repository.go:106-136 | the oldest due rows that nobody holds, all of them or a full batch |
| `Outbox.OutboxRepository.MarkPublishedBatch` | internal/infrastructure/outbox/repository.go:149-159 | deletes exactly the given rows |
| `Outbox.HotPath.Offer` | internal/order/service.go:187-210 | a full channel drops the id |
| `Outbox.HotPath.FlushBatch` | internal/order/service.go:87-102 | deletes the batch or not, and forgets it either way |
| `Outbox.HotPath.Receive` | internal/order/service.go:72-80 | collects one id and flushes at 200 |
| `Outbox.FailuresCounted` | internal/infrastructure/outbox/repository.go:149-170 | a finished sweep keeps exactly the unacknowledged messages of its batch, each counted once more, and leaves all other rows alone |
| `Outbox.NothingLost` | internal/infrastructure/outbox/worker.go:68-119 | after any interleaving every committed message is in the table or in the log |
| `Outbox.DeletedIsPublished` | internal/infrastructure/outbox/repository.go:149-159 | only published rows are deleted |
| `Outbox.BatchesDisjoint` | internal/infrastructure/outbox/repository.go:103-136 | concurrent sweeps never hold the same message |
| `Outbox.SweptOnce` | internal/infrastructure/outbox/worker.go:68-119 | sweeps alone, without lost acknowledgements and rollbacks, publish each message at most once |
| `Outbox.ProcessIsSweep` | internal/infrastructure/outbox/worker.go:68-119 | the sweep's steps, finished or rolled back on the way, are one call of process |
| `RateLimiter.RedisRateLimiter.Allow` | internal/middleware/redis_rate_limiter.go:14-86 | the script's decision and new state for one key, other keys untouched, every request let through when the store is down |
| `RateLimiter.AllowedIff` | internal/middleware/redis_rate_limiter.go:14-46 | a request is allowed exactly when counting it breaks no window's bound of capacity plus rate times length |
| `RateLimiter.WindowBound` | internal/middleware/redis_rate_limiter.go:14-46 | in any window at most capacity + rate * length requests are allowed |
| `RateLimiter.DisorderBreaksBound` | internal/middleware/redis_rate_limiter.go:14-46 | with request times that go back, a bucket of one lets two requests of one moment through |
| `RateLimiter.TTLFills` | internal/middleware/redis_rate_limiter.go:22-26 | the keys live at least as long as the bucket takes to fill |
| `RateLimiter.EvictionsUnobservable` | internal/middleware/redis_rate_limiter.go:22-43 | losing either key after its time changes no decision and no state |

## Left out

- HTTP handlers, gateway, WebSocket, metrics, logging, simulators, deployment: no property of the money path.
- Kafka, Postgres, Redis and JSON themselves: a log is a sequence, a transaction is atomic (its row locks are explicit in `RowLocks`), events are datatypes.
- Ids and clocks: ids are natural numbers standing for the order of their string forms; times are parameters; UpdatedAt and the creation time of trade rows are not modelled.
- Upper-casing of symbols: a symbol is the list of its dash-separated parts, already in upper case.
- Decimals: amounts are reals, with one rounding function; DECIMAL(38,18) overflow is not modelled.
- The rate limiter's binary floating point and the text form of its stored numbers: reals.
- The mutex around each engine, and engines running in parallel with each other: calls are atomic.
- `Row.lockedAmount`: the code carries it in the order.placed payload, not in a column.
- The library's stable sort: modelled by insertion, which `Sorting.StableSortUnique` shows to be no restriction.
- Unknown event types and payloads that do not parse: skipped or retried by the consumers without touching the database.
- The publishing retries of the matching consumer: an event counts as published once it is in the log.
- The pre-checks of `CancelOrder` and of settlement run against the same state as their transaction; a change in between only makes the transaction's own check refuse.
- RowLocks.CodedNeverDeadlocks: leaves out the locks that foreign keys and unique indexes take and those on outbox rows.
- AccountService.Service.RegisterAnonymousUser: records no row locks, because nobody else can name a new user's rows before they commit; the same goes for the order rows that placing inserts.
- A takeover whose restoring query fails: it the new leader works on empty books (`Recovery.BecomeLeader`), and no run of `Exchange` contains that.
- Deployments without an outbox or event bus: messages are always written.
- A statement that the database runs after its client has given up the tick: elector statements take effect before the tick ends, though the reply may be lost.
- Duplicate order.placed deliveries: in the runs of `Exchange` each order reaches its engine once; `Takeover.HandedAgain` says what a second time does to a restored book.
- Trade ids: each engine numbers its own trades; that they differ between engines and terms is a hypothesis, in place of random ids.
- Liveness: eventual delivery and eventual leadership depend on timers and networks.
- K-lines, recent trades, cached snapshots in Redis, the idempotency middleware and the in-memory limiter: only easy members or code not visible in the repository.
