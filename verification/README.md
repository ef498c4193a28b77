# Verified model of the trade execution core

The repository trades a two-token prediction market. Its execution core is a reconciler that
turns a desired position into orders (`src/execution/engine.py`), an order manager that tracks
orders, trades and positions through two independent feeds (`src/execution/manager.py`), and an
event bus that carries the feeds (`src/bus.py`). A mock exchange (`src/execution/mock/`) stands in
for the real one. This project models these parts, composes them, and proves what they keep in
every interleaving.

`dafny verify dfyconfig.toml` checks the whole project.

## How it is built

- **Values and steps.** Every lock-protected block is a function on a value: `Orders`, `Positions`,
  `Manager`, `Engine`, `Fees`, `MockStore`, `MockStream`, `Bus`. Shares and money are integers in millionths
  (`Micro`), prices are `real`, and `Rounding.Round` is half-even rounding where a product leaves
  the grid.
- **Objects.** `ManagerObjects`, `EngineObjects`, `MockObjects` and the classes of `Bus` are the
  program's classes, updated in place. The trade objects shared between the manager and its orders
  are shared here too. Each method is proved to take the value of its object where the functions
  above say. Ghost field `model` holds that value. The small methods of an order, a trade or a position
  mirror those functions; aliasing, dictionaries and loops are what the rest is about.
- **`Desk`** is the core as a state machine: manager, engine, submit and cancel workers in flight.
  One action is one lock-protected block with the synchronous code up to the next suspension point.
  Clients and feeds may do anything, so a `Trace` is any interleaving.
- **`World`** closes the system: the clients are the mock store, the feeds are its event list behind
  two blocking FIFO queues. A `History` is any interleaving of the moves of both sides. Moves
  allow more than the program does; `WorldStream.Streamed` are the histories with the mock stream's delays,
  prices and polls, and every concrete history is one. `DeskScenes` and `WorldScenes` have the pieces that
  concrete runs are built of.
- **Books.** A `Posting` is one change of a position. `Positions.Replay` folds the postings of a token
  into the position and, beside it, into independent totals, which the ledgers compare with it.
- **Field by field.** What each block does is stated a second time on the fields of its data, with the
  literal thresholds of the code and without the functions that the block is built of (`EventOutcome`,
  `ReplacedIff`, `ReportOutcome`, `WinnerIsPaid`, `CancelReplied`, `RoomDecides` and the like).
  `CashRuns` does this for the cash over whole runs.
- **Arithmetic and text.** `Vwap` is the price of a taker trade from its details, `QuoteLog` the printed
  quote line with the parser and the downsampling loop of the dashboard.

## Assumptions, and what becomes of them

The main properties of runs that a feed can break are stated with their exact condition, over every run
and with nothing assumed. The assumptions below are sufficient conditions that read more simply.

- `OneActive.InOrder`: the submit result of an order is handled before its feed events, and a rejected
  order has none. Both halves are needed: `EarlyFillBreaks` and `RejectionRevived` are runs that end with
  two active orders. `OneActiveIff` and `FinalIff` need no assumption; they say exactly which steps do harm.
  Over the mock exchange only late submit answers are left: `OneActiveOverMock` and `FinalOverMock` say
  which, `EarlyFillOverMock` is a history with one, and `PromptFindsActive` shows that there is none as
  long as no order is reported before its submit answer is handled.
- `Ledger.StableTrade`: the first report of a trade agrees with its order's side; later ones keep the order
  and after a success only repeat it. `OneShareHeldTwice` is an input outside it. Without it,
  `BalanceKeptIff` says which events keep the balance, `AppliedOnceIff` exactly when every success is
  applied once, and `ShareLedgerIff` exactly when the share ledger holds. The mock exchange discharges
  the assumption (`MockTradesStable`).
- `Desk.SizedAction`: order events carry the size of their order. `PendingMatchedLaw` says exactly when
  events of other sizes do no harm, `WrongSizeBreaksPendingLaw` is one that does. The mock exchange
  discharges it (`MoveSized`).
- `PositionRuns.SaneTrade`: sizes are not negative and prices between 0 and 1; at a fee rate above one a
  trade first reported as a buy stays one. `SideChangeBreaksShape` is an input outside the last part.

## Code and documentation

The comments on `is_active` and `is_canceled` (`src/execution/manager.py:69`, `src/execution/manager.py:78`)
speak of pending and invalid shares; the code looks at the status alone, and so does the model. A
submission that failed is not `is_canceled`: an active order event revives it (`EventRevives`).

## Model

| member | source | states |
|---|---|---|
| Orders.StepKeepsPendingLaw | src/execution/manager.py:279-465 | every step of an order (feed, submit result, cancel result) keeps pending at 0 or at exactly the unmatched shares, if and only if it is not an event that does not fit; whatever it is, pending never grows and matched never shrinks |
| Orders.EventKeepsPendingLawIff | src/execution/manager.py:434-465 | any event keeps that law if and only if nothing is pending or will be, or it leaves nothing unmatched, or reports no new match and at least the pending shares unmatched, or reports a new match and the order's own size |
| Orders.WrongSizeBreaksPendingLaw | src/execution/manager.py:449-456 | a concrete event of the wrong size that breaks it |
| Orders.FoldIsJoin | src/execution/manager.py:434-465 | any non-empty sequence of order events on a fresh order ends in the order given by the largest report and by whether some event was inactive |
| Orders.MaxReportIsMax | src/execution/manager.py:435-437 | that largest report is an upper bound, and is 0 or one of the reports |
| Orders.SameEventsSameOrder | src/execution/manager.py:434-465 | reordering or repeating order events ends in the same order |
| Orders.StatusOfReports | src/execution/manager.py:457-465 | after active events nothing is matched, or at least 0.98 or all but dust (a full match), or something between (a part match), as the largest report says |
| Orders.EventKeepsStatusLaw | src/execution/manager.py:434-465 | a full match has at least 0.98 of the shares or only dust pending; canceled and failed orders have nothing pending |
| Orders.EventRevives | src/execution/manager.py:434-465 | an event makes a finished order active if and only if its submission had failed, the event is active and neither side has seen a match |
| Orders.EventOutcome | src/execution/manager.py:428-465 | whatever the order, field by field: an event of its market and token that is neither live nor matched ends it, and a canceled order stays ended, with nothing pending and the rest invalid; otherwise pending shrinks to what is unmatched and from 0.98, or with dust pending, it is a full match |
| Orders.WorkerAnswers | src/execution/manager.py:279-396 | the four answers of the workers, field by field: a failed submission with a deferred cancel is a canceled order, without one a failed order; a submit success makes any order live |
| Orders.RequestAnswered | src/execution/manager.py:321-348 | a cancel request is deferred while submitting, finds nothing active on an ended order, is in progress when asked before, and starts on a live order otherwise; only the flag concerned changes |
| Orders.FailedForGoodIff | src/execution/manager.py:304-319 | after a failed submission an event makes the order active if and only if no cancel had been deferred, the event is live or matched and neither side has seen a match; after a successful cancel none does |
| Positions.ShareLedger | src/execution/manager.py:580-599 | for any postings, holding, write-offs and payouts are buys less sells |
| Positions.SaleDrift | src/execution/manager.py:591-595 | rounding cost and profit of a sale separately drifts by at most one millionth, exactly when the cost share is a tie against an odd difference |
| Positions.PostDrift | src/execution/manager.py:188-205 | buys and settlement add no drift, a sale only in that case |
| Positions.MoneyLedger | src/execution/manager.py:580-599 | realized profit is sell cash less buy cash, payouts, remaining and written-off cost, within one millionth per sale that hit a tie |
| Positions.PostKeepsShape | src/execution/manager.py:597-599 | every settlement, and every trade of non-negative size whose cost, if it buys, is not negative, leaves a position flat, or above dust with a non-negative cost |
| Positions.AvgPriceStable | src/execution/manager.py:591-594 | a partial sell moves the average price by at most half a millionth over the remaining shares |
| Positions.TradeApplied | src/execution/manager.py:580-599 | on fields: a buy adds its amount and shares; a sell takes its shares out with their share of the cost, in proportion, and the profit gains the amount less that cost, each rounded half-even; at most 0.01 share left is written off |
| Positions.PaysPayable | src/execution/manager.py:176-205 | on fields: settlement leaves a position alone that holds or would pay at most 0.01 share; otherwise the payable shares go with their share of the cost, rounded half-even, and the profit gains the shares, if they win, less that cost |
| Settlement.SettledIff | src/execution/manager.py:163-172 | a settlement is accepted if and only if the outcome is one of the two token outcomes letter by letter, in small or capital letters |
| Settlement.WinnerIsPaid | src/execution/manager.py:163-205 | an accepted settlement on the position of either token: the first token wins if and only if the outcome is its own; the profit gains the payable shares, if the token wins, less their cost |
| Settlement.UpOrDown | src/models.py:10-24 | for tokens named "Up" and "Down" and the outcome "UP" or "DOWN": the profit of the token reported gains its payable shares less their cost, that of the other loses the cost |
| Settlement.SettlementLeaves | src/execution/manager.py:163-205 | settlement of a market leaves of each token exactly the shares of its settling sells, or none when those are dust, if and only if it pays and no sell is on chain ahead of its order event (or only dust is to be sold), or it pays nothing and that is what is held |
| Positions.SettleIdempotent | src/execution/manager.py:176-205 | settling one position again, for either outcome, changes nothing |
| Manager.SettleMarketIdempotent | src/execution/manager.py:163-205 | settling both tokens of a market again, for the same or the other outcome, changes nothing |
| Positions.SettleThenConfirm | src/execution/manager.py:176-205 | settlement told any number of settling shares, and then any sales: every share is either paid out or sold, never both, if and only if the sales are exactly what settlement spared; then the position is flat and nothing is written off |
| Settlement.SettleThenConfirmSells | src/execution/manager.py:163-205 | settlement by the manager's own sum and then the confirmation of exactly the settling sells: every share is either paid out or sold once, if and only if it pays and no sell is on chain ahead of its order event (or none is settling), or it pays nothing and the sells are all that is held |
| Settlement.PaidOrSoldIff | src/execution/manager.py:163-205 | in every run, with nothing assumed, from a settlement to any later state: what was paid out and sold of a token is what was held if and only if what was sold is what the settlement spared |
| Settlement.SettledSellsOnce | src/execution/manager.py:163-205 | over runs with stable trades, once exactly the sells settling at the settlement are confirmed: every share held then was paid out or sold once, under the same condition on that state |
| OvertakenSell.ThirteenOfTen | src/execution/manager.py:607-620 | a run in which the condition fails though answers and events are in order, sizes right and trades stable: of 10 shares 8 are paid out and 5 sold, because a sell of 3 was mined before its order event |
| Positions.DustNeitherPaidNorSold | src/execution/manager.py:185-186 | a concrete holding of which a remainder of dust is neither paid out nor sold |
| Fees.SplitFillFees | src/execution/mock/clients.py:84-89 | fees of n fills at one price sum to at most the fee of the whole, and to more than it less n steps of 0.00001 |
| Fees.FeeSymmetric | src/execution/mock/clients.py:84-89 | the fee is the same at price p and at 1 - p |
| Fees.FeeAtMostQuarter | src/execution/mock/clients.py:84-89 | the fee is non-negative and at most rate times shares over four |
| Fees.SellCashNonNegative | src/execution/manager.py:510-522 | with a rate of at most one and a price in [0, 1] the cash of a trade is never negative, fee included |
| Fees.MakerCash | src/execution/manager.py:510-522 | a maker's cash is shares times price, rounded half-even to a millionth |
| Fees.TakerCash | src/execution/mock/clients.py:84-89 | a taker pays more on a buy, and gets less on a sell, by rate times shares times price times one less price, cut towards zero to whole steps of 0.00001 |
| CashRuns.CashFollowsFills | src/execution/manager.py:510-599 | in every state of every run, with nothing assumed: what the books paid for a token and what they received are the exact cash of its fills, shares times price with the taker fees, to within half a millionth per fill and one fee step per taker fill, on the side to which the fee is cut |
| Fees.RoundTripCost | src/execution/manager.py:510-522 | buying and selling back at one price costs the taker both fees and the maker nothing, around the cash of a maker |
| Rounding.RoundedDifference | src/execution/manager.py:593-595 | taking the same amount out of two numbers and rounding both keeps their difference unless the amount is a tie and the numbers differ in parity |
| Rounding.RoundIsNearest | src/execution/manager.py:511 | rounding gives the nearest millionth, and of two the even one, and nothing else |
| Engine.PlacesTowardsTarget | src/execution/engine.py:64-133 | an order is placed only without an active one, for at least 0.10; a buy aims at the target, a sell at the target as far as unclaimed shares allow |
| Engine.ReplacedIff | src/execution/engine.py:64-156 | an active order on the side of what is missing is withdrawn if and only if 0.10 or more is to be done, and it is unforced and its time is up, or its price is 0.01 or more away from that of a new order; on target its pending shares are what is to be done |
| Engine.PlacedIff | src/execution/engine.py:64-129 | without an active order what is missing is ordered, as far as it may be sold, if and only if that is 0.10 or more: as a maker from 5 shares when unforced, a cent inside the quote, and otherwise as a taker, a cent beyond it |
| Engine.WrongSideWithdrawn | src/execution/engine.py:80-133 | an active order on the other side than what is missing is withdrawn if and only if 0.10 or more is missing, sellable shares or not |
| Engine.PlacementStored | src/execution/manager.py:210-247 | a placement is stored as decided: all of it pending, nothing matched, awaiting the client, behind the orders that were there |
| Engine.SignalsIndependent | src/execution/engine.py:59-62 | handling the signal of one token leaves the decision for the other token as it was |
| Quoting.TakerCrossesMakerRests | src/execution/engine.py:159-164 | an order placed by the engine crosses the quote it was priced at exactly when it is a taker order; a maker order rests, a taker order is due one second later and not before |
| Desk.CancelProtocol | src/execution/manager.py:279-396 | in every interleaving is_cancelling holds exactly when one cancel worker is in flight, never two, and should_cancel means the submit worker has not finished |
| Desk.DeferredCancelHonoured | src/execution/manager.py:295-302 | over runs, a cancel request deferred at some step stays deferred while the submit worker runs, and in the first state without the worker the order is inactive or has one cancel worker in flight |
| Desk.StepKeepsProtocol | src/execution/manager.py:321-354 | every action keeps that protocol, for all orders and workers |
| Desk.CancelAnswerTakesEffect | src/execution/manager.py:356-396 | the answer to a cancel ends its only worker; if it is a success the order is no longer active and has nothing pending, otherwise only its flag is cleared |
| Desk.SubmitAnswerTakesEffect | src/execution/manager.py:256-319 | a rejected submission ends the order and its worker; an accepted one makes the order live and keeps the worker if and only if a cancel was deferred |
| Desk.NothingRefused | src/execution/engine.py:43-62 | no block is ever refused: feeds are heard in every state, an idle engine takes any wish for either token and any settlement, what it waits for may end either way, every worker goes on |
| Desk.OrdersOnlyAdvance | src/execution/manager.py:304-456 | between any two states of any run, with nothing assumed, pending never grows and matched never shrinks |
| Desk.PendingMatchedLaw | src/execution/manager.py:434-465 | over runs, with nothing assumed: in every state pending of every order is 0 or exactly what is unmatched, if and only if every order event fits what is pending |
| OneActive.AtMostOneActive | src/execution/engine.py:64-133 | in every run that respects the order of answers and events a token never has two active orders, nor one while another is being created |
| OneActive.FinishedStaysFinished | src/execution/manager.py:423-465 | in such a run no finished order becomes active again |
| OneActive.FinalIff | src/execution/manager.py:279-465 | over runs, with nothing assumed: no finished order ever becomes active again if and only if no submit success finds its order finished and no active event without a match meets a rejected order |
| OneActive.OneActiveIff | src/execution/engine.py:64-133 | over runs, with nothing assumed: no token has two active orders (or one beside one being created) if and only if no step revives a finished order while its token is taken |
| OneActive.LateSubmitSuccess | src/execution/manager.py:279-287 | a submit success keeps one order per token if and only if its order is still active or nothing else of the token is |
| OneActive.EventAfterRejection | src/execution/manager.py:434-465 | an order event keeps it if and only if it does not revive a rejected order or nothing else of the token is active |
| OneActive.EarlyFillBreaks | src/execution/manager.py:286 | a run from the start to two active orders of one token: fill, second order, late submit answer |
| OneActive.RejectionRevived | src/execution/manager.py:268-270 | another such run: failed client call, second order, live event of the first |
| Ledger.BooksReached | src/execution/manager.py:477-599 | in every run with stable trades positions are the replay of the postings and the books balance with what the orders' trades have settled |
| Ledger.BalanceKeptIff | src/execution/manager.py:488-550 | any accepted trade event keeps the balance if and only if `KeepsBalance` holds: a first report is no success, on its order's side or empty; a later one of the same order repeats a success or finds and makes none; one that names another order counts nothing twice |
| Ledger.StableKeepsBalance | src/execution/manager.py:488-550 | the assumption on the trade feed admits only such events |
| Ledger.AppliedOnceIff | src/execution/manager.py:543-550 | over runs, with nothing assumed: in every state each trade has been applied to a position once if it is a success and not at all otherwise, if and only if no event takes a success back |
| Ledger.EffectiveClosedForm | src/execution/events.py:22-32 | effective shares are the stake of the buys less that of the sells less write-offs and payouts, whatever has settled |
| Ledger.TradeMovesEffective | src/execution/manager.py:524-599 | any stable trade event moves effective shares by the write-offs and by what newly failed, down for a buy and up for a sell |
| Ledger.ConfirmationKeepsEffective | src/execution/manager.py:524-599 | so it leaves them alone up to write-offs if and only if the failed shares of its trade do not change |
| Ledger.FailureTakenBack | src/execution/manager.py:529-533 | a filled buy reported failed and then mined counts 1, 0 and 1 share |
| Ledger.FillKeepsEffective | src/execution/manager.py:434-456 | an order event of its order's size leaves effective shares alone if and only if it is no news, or a fill of pending shares within the order, or the full report of an order that ends |
| Ledger.LateFillMoves | src/execution/manager.py:434-447 | a fill reported for a canceled order with nothing pending moves them |
| Ledger.RetryAppliesAgain | src/execution/manager.py:534-550 | a repeated success is not applied again, but after a retry it is |
| Ledger.FillHeldTwice | src/execution/manager.py:534-550 | a fill reported mined, retrying and mined again is held twice |
| Ledger.OneShareHeldTwice | src/execution/manager.py:534-550 | the same with concrete values |
| Manager.ReportOutcome | src/execution/manager.py:477-541 | a trade event leaves everything alone if it names no tracked order of its market and token; otherwise its shares are all settled (mined or confirmed), all failed or all pending, the order has the trade once, and the trade keeps what its first report said of it |
| Manager.OutcomeIff | src/execution/manager.py:477-567 | exactly when the handler applies, records or ignores an event, and when building the notification raises: no position under the token of the event, or a fill of no shares |
| Manager.SnapshotHolds | src/execution/manager.py:622-634 | the holding in the snapshot is the position of the token, or nothing; average price times shares is the cost above dust, and the average is zero otherwise |
| Manager.SnapshotGrows | src/execution/manager.py:601-620 | the four sums are zero without orders, and one more order of the token adds its pending shares, and its matched ones that are neither settled nor failed, to the two sums of its side |
| Manager.StoredInPlace | src/execution/manager.py:244-247 | a stored order is there, every order of another id is where it was, and only an unknown id adds one |
| LedgerRuns.GapIsShifts | src/execution/manager.py:488-599 | in every state of every run, with nothing assumed, settled buys less sells exceed holding, write-offs and payouts by exactly the sum of what each trade event has shifted: each order holding the trade counts its change, the position counts it once |
| LedgerRuns.ShareLedgerIff | src/execution/manager.py:488-599 | so over runs the share ledger of every token holds in every state if and only if no trade event shifts it |
| LedgerRuns.StableFeedHarmless | src/execution/manager.py:488-599 | the assumption on the trade feed meets both exact conditions: no event of such a run shifts the ledger or takes a success back |
| PositionRuns.MoneyLedgerHolds | src/execution/manager.py:188-205 | in every run, with no assumption on the feeds, realized profit agrees with the cash totals up to one millionth per tie |
| PositionRuns.PositionShapeHolds | src/execution/manager.py:588-599 | in every run whose trades have non-negative sizes and prices in [0, 1], at any fee rate (above one, if a trade first reported as a buy stays one), every position is flat, or above dust with a non-negative cost |
| PositionRuns.SideChangeBreaksShape | src/execution/manager.py:519-550 | at a fee rate of 8 a trade seen as a buy and mined as a sell leaves a share at a negative cost |
| MockStore.MatchOk | src/execution/mock/store.py:145-174 | whatever list the caller iterates, a match keeps every order whole or unfilled and every fill in one trade, changes only a live order, and its report extends the emission log |
| MockStore.CancelOk | src/execution/mock/store.py:92-104 | an accepted cancel leaves the order canceled, keeps the invariant and emits no trade |
| MockStore.SubmitStores | src/execution/mock/store.py:61-90 | an order is stored, live and with the fields of the client's call, if and only if it has shares |
| MockStore.CancelReplied | src/execution/mock/store.py:92-104 | a cancel is accepted if and only if the order is known and has something unmatched; "order not found" and "matched" are the other answers; an accepted one leaves the order canceled and reports it once |
| MockStore.ReadsOrder | src/execution/mock/store.py:106-109 | reading an order gives its fields as they are, and nothing for an unknown one |
| MockStore.MatchFills | src/execution/mock/store.py:145-174 | a match takes place if and only if the order is known, not canceled and has something unmatched: all of that goes into one trade at the given price, due after the delay, and order and trade are reported in this order |
| MockStore.MinedWhenDue | src/execution/mock/store.py:176-182 | a trade is mined, and reported with its fields and the time, if and only if it was only matched so far and is due |
| MockStore.PromoteAllOk | src/execution/mock/store.py:176-182 | promotion keeps the invariant and extends the log by mined reports, at most one per trade and none before its due time |
| MockStore.ExchangeRuns | src/execution/mock/store.py:85-188 | for any operations: orders fill whole or not at all, never both matched and canceled; one trade per fill; reported matched, then mined at most once when due; drained and pending events are the emission history |
| MockStream.QuoteFillsWhatItCrosses | src/execution/mock/stream.py:22-28 | a quote fills exactly the resting maker orders of its token that it crosses, at their own prices, and touches nothing else |
| MockStream.PollFillsAndMines | src/execution/mock/stream.py:36-41 | a poll fills exactly the due taker orders and mines exactly the trades due before it; a trade it makes is left for a later poll |
| MockStream.QuoteFillsIff | src/execution/mock/stream.py:22-49 | by fields: a quote fills an order if and only if it is a live maker order of its token with something unmatched, a buy at or above the ask or a sell at or below the bid; whole, at its own price, in one trade due 250 ms later; every other order stays as it was |
| MockStream.PollFillsIff | src/execution/mock/stream.py:33-41 | by fields: a poll fills an order if and only if it is a live taker order with something unmatched that is at least 1000 ms old, in the same way |
| MockStream.RunsListOrders | src/execution/mock/store.py:85-90 | in every run the insertion order lists each stored order once |
| Bus.BlockIsLossless | src/bus.py:78-81 | over any publishes and takes a blocking queue delivers a lossless FIFO |
| Bus.RoomDecides | src/bus.py:77-107 | only a queue that holds maxsize > 0 items turns anything away; with room every policy puts the item last. A full one makes a blocking publisher wait, raises, refuses the item or gives up its head for it, and only the last two count a drop |
| Bus.HoldsTheNewest | src/bus.py:92-102 | without takes a drop-oldest queue holds exactly the last min(maxsize, n) of n items published, or all of them when it is unbounded, and counts the others |
| Bus.HoldsTheFirst | src/bus.py:83-90 | without takes a drop-newest queue holds exactly the first min(maxsize, n), or all |
| Bus.DropsIff | src/bus.py:83-102 | over runs of publishes and takes a publish costs an item if and only if the queue was full and is one that drops |
| Bus.DropOldestKeepsNewest | src/bus.py:92-102 | drop-oldest keeps a contiguous suffix of the published log, at most maxsize items, and counts what it drops |
| Bus.DropOldestNeverFails | src/bus.py:92-102 | over runs its `put_nowait` after the drop never raises, and every item published ends up last in the queue |
| Bus.DropNewestKeepsOrder | src/bus.py:83-90 | drop-newest delivers a subsequence in order, and published is delivered, queued and dropped |
| Bus.Subscription.Offer | src/bus.py:77-107 | delivery under the four policies, as the queue functions say |
| Bus.Subscription.Next | src/bus.py:43-46 | taking returns the head and leaves the rest |
| Bus.EventBus.Publish | src/bus.py:70-75 | every matching subscriber has one delivery, no other queue changes; it stops short only at a full blocking or raising queue, and no queue exceeds its bound |
| Bus.EventBus.Subscribe | src/bus.py:53-68 | a new empty subscription behind the existing ones |
| World.TransportKeepsLog | src/execution/component.py:34-56 | draining, publishing and taking lose, repeat or overtake no trade event |
| World.TransportKeepsOrders | src/execution/component.py:34-52 | draining and publishing lose, repeat or overtake no order event, and what is handled is the oldest not yet handled |
| World.EmissionExtendsOrders | src/execution/mock/store.py:92-188 | what the store emits joins them at the far end |
| World.SyncReflects | src/execution/manager.py:404-409 | a synchronizing worker hands over the order as the exchange had it when it was read, once |
| World.SubmitReachesExchange | src/execution/mock/clients.py:23-44 | the exchange gets an order as the manager has it, and accepts it if and only if it has shares |
| World.CancelReachesExchange | src/execution/mock/clients.py:72-73 | a cancel is accepted and carried out if and only if the exchange knows the order and has not filled it; otherwise it changes nothing |
| WorldLinks.StepKeepsLinked | src/execution/manager.py:423-465 | a step caused by the exchange keeps an order the mirror of its twin: same size, filled only if the twin is matched, emptied unfilled only if the twin is canceled |
| WorldKeepsLinks.MoveKeepsLinks | src/execution/mock/store.py:85-188 | every move of the closed system keeps these links for orders, events and answers in flight |
| WorldKeepsLinks.TradeFindsOrder | src/execution/manager.py:477-486 | every trade report of the exchange names a tracked order of the same side and size that is matched |
| WorldTrades.MockTradesStable | src/execution/mock/store.py:157-182 | the exchange and the queue discharge the assumption on the trade feed |
| WorldTrades.CoherentReached | src/execution/mock/stream.py:33-41 | the invariant of the closed system holds in every reachable state |
| WorldTrades.ExactlyOnce | src/execution/manager.py:488-550 | each fill is applied to the position never before its mined report is handled and exactly once after, whole; the report of every mined trade is handled or still on its way |
| WorldTrades.LedgerOverMock | src/execution/manager.py:580-599 | the share ledger in every reachable state of the closed system, with no assumption left |
| WorldSafety.ClaimWhole | src/execution/manager.py:610-620 | what an order still claims is all of its shares or nothing |
| WorldSafety.TradeTakenCovers | src/execution/manager.py:588-599 | a confirmed fill takes from the holding what it had claimed, and dust is written off only when nothing is claimed any more |
| WorldSafety.NeverOversoldIff | src/execution/manager.py:163-205 | in every history: pending and settling sells plus a sell being created never exceed the holding, in any state and for any token, if and only if every settlement carried out pays nothing of a token, or spares more than dust while no sell of it is pending, or finds nothing claimed |
| WorldSafety.NeverOversold | src/execution/engine.py:80-90 | so before settlement they never do, in any reachable state |
| WorldTarget.TargetHit | src/execution/engine.py:64-129 | right after an order is stored, in any state of any history, effective shares are the target (for a sell, the target as far as unclaimed shares allow) less exactly what was written off since the decision |
| WorldTarget.WrittenOffBeforeSettlement | src/execution/manager.py:588-599 | before settlement that is at most dust for a buy and nothing for a sell |
| WorldWriteOff.DustDropped | src/execution/manager.py:597-599 | a history the mock stream can produce, before settlement, in which a buy ends half a hundredth of a share short of its target |
| WorldWriteOff.SoldAfterPayout | src/execution/manager.py:163-205 | another, through settlement, in which a buy for a target of 5 ends at 15: the shares that a pending sell takes had been paid out |
| WorldTarget.GoalOf | src/execution/engine.py:72-90 | before settlement the effective position an order aims at is the target, or the shares still settling in when they are more |
| WorldTarget.NoSecondOrder | src/execution/engine.py:64-129 | before settlement, under a constant target and with neither a cancel nor a settlement meanwhile, no second order is placed, for every buy and for every sell whose target is not 0.10 or more below what was settling in at the decision; effective shares stay within dust of the goal |
| WorldTarget.PlacesIff | src/execution/engine.py:64-133 | before settlement the engine places an order if and only if the token has no active one and effective shares are 0.10 below the target, or 0.10 above both the target and what is settling in |
| WorldSecondSell.SecondSell | src/execution/engine.py:80-90 | a history the mock stream can produce in which a constant target of 0 takes two sells: 5 held, 10 settling in, 5 offered, the 10 mined, the 5 filled, 10 offered |
| WorldOneActive.MoveSized | src/execution/mock/store.py:190-205 | events of the mock exchange carry the size of their order |
| WorldOneActive.PendingLawOverMock | src/execution/manager.py:434-456 | over the mock exchange the pending/matched law needs no assumption |
| WorldOneActive.OneActiveOverMock | src/execution/engine.py:64-133 | over the mock exchange, in every history: no token has two active orders (or one beside one being created) in any state if and only if every submit answer, when handled, finds its order still active or nothing else of its token active or being created |
| WorldOneActive.FinalOverMock | src/execution/manager.py:279-465 | and no finished order ever becomes active again if and only if every submit answer finds its order still active |
| WorldOneActive.PromptFindsActive | src/execution/manager.py:279-295 | every answer does, in a history in which no order is reported before its submit answer is handled |
| WorldEarlyFill.EarlyFillOverMock | src/execution/manager.py:279-287 | a history the mock stream can produce that ends with two active orders: the first is filled and reported before its submit answer is handled |
| ManagerObjects.ManagedOrder.OnChainShares | src/execution/manager.py:88-94 | settled and failed shares are sums over the shared trade objects |
| ManagerObjects.OrderManager.InsertOrder | src/execution/manager.py:228-247 | a new order is stored last, or in the place of a known id |
| ManagerObjects.OrderManager.StepOrder | src/execution/manager.py:279-396 | a block on one order changes that order only, and nothing when it is unknown |
| ManagerObjects.OrderManager.SubmitSucceeded | src/execution/manager.py:279-295 | a submit success, and whether a deferred cancel is to be honoured |
| ManagerObjects.OrderManager.Cancel | src/execution/manager.py:321-354 | a cancel request and its answer |
| ManagerObjects.OrderManager.OnTradeFeed | src/execution/manager.py:477-567 | recording, the shared trade object, and one application to the position when the trade becomes a success, with the two errors that building the notification can raise |
| ManagerObjects.OrderManager.UpdateTrade | src/execution/manager.py:488-541 | the trade object is created on its first event and shared with every order that holds it |
| ManagerObjects.OrderManager.BuildCurrentPosition | src/execution/manager.py:601-634 | the accumulating loop computes the four sums over the orders of a token |
| ManagerObjects.OrderManager.GetPositionByToken | src/execution/manager.py:152-161 | the snapshot with the first active order in insertion order, or none |
| ManagerObjects.OrderManager.SettleMarketAt | src/execution/manager.py:163-205 | settlement of both tokens, winner first; an unknown outcome changes nothing |
| EngineObjects.ExecutionEngine.DecideNow | src/execution/engine.py:64-97 | reading the manager under its lock and deciding, with the first active order as an object |
| EngineObjects.ExecutionEngine.Perform | src/execution/engine.py:111-156 | carrying the decision out on the manager as it is by then: at most one order inserted or one cancel requested |
| Desk.StagePerforms | src/execution/engine.py:64-156 | whatever happens in between, the engine's second action performs the decision of its first |
| MockObjects.OrderStore.Submit | src/execution/mock/store.py:85-90 | the client's object is stored; one without shares is refused |
| MockObjects.OrderStore.Cancel | src/execution/mock/store.py:92-104 | cancel in place with its reply |
| MockObjects.OrderStore.MarkMatched | src/execution/mock/store.py:145-174 | the order filled, the trade stored and both events appended |
| MockObjects.OrderStore.PromoteMined | src/execution/mock/store.py:176-182 | the loop mines every due trade in the order of creation |
| MockObjects.OrderStore.DrainEvents | src/execution/mock/store.py:184-188 | hands over the list and starts a new one |
| MockObjects.OrderStore.RestingMakerOrders | src/execution/mock/store.py:124-132 | the resting maker orders, as objects, in insertion order |
| MockObjects.OrderStore.DueTakerOrders | src/execution/mock/store.py:134-143 | the due taker orders, as objects, in insertion order |
| MockObjects.TradeStream.TakeQuote | src/execution/mock/stream.py:22-28 | the quote is recorded, and the loop over a list taken beforehand matches what it crosses |
| MockObjects.TradeStream.Poll | src/execution/mock/stream.py:36-41 | one poll: match, promote, drain |
| Vwap.OverallTradePrice | src/execution/live/stream.py:152-179 | the accumulating loop with its early fallbacks and errors |
| Vwap.PriceBetween | src/execution/live/stream.py:161-179 | the price lies between the lowest and the highest maker price, where details on the own token count at their price and the others at one less it, scaled by total over overall shares |
| Vwap.OnePriceIsThePrice | src/execution/live/stream.py:164-179 | details all on the token at one price p, with exact totals, give p; details all on the other token give 1 - p |
| Vwap.CostsAdd | src/execution/live/stream.py:161-179 | price times shares adds up over lists of details: every detail weighs by its shares |
| Vwap.FallsBackOrRaises | src/execution/live/stream.py:152-178 | the message price stands without a list or shares, when the first unusable entry is no record, and when totals differ by more than 0.000001; a first unusable entry that lacks fields raises; otherwise the price is computed |
| Vwap.PriceNearAverage | src/execution/live/stream.py:171-179 | it is off the true weighted average by at most the highest price times 0.000001 over shares |
| Vwap.SwitchIsComplement | src/execution/live/stream.py:164-169 | seen from the other token the price is one less, if and only if the totals agree exactly |
| QuoteLog.QuoteRoundTrip | src/dashboard/server.py:41-46 | parsing a printed quote line gives back exactly its values, the absent difference included |
| QuoteLog.MessageInjective | src/runtime/runtime_state.py:195-203 | different values never print alike |
| QuoteLog.SignedRoundTrip | src/runtime/runtime_state.py:240-253 | a signed difference is read back exactly |
| QuoteLog.PatternIff | src/dashboard/server.py:41-46 | for any text: the parser reads these groups if and only if the text matches the pattern with them, the optional column being absent only when nothing there matches it |
| QuoteLog.DecimalIff | src/dashboard/server.py:189-194 | for any text: exactly plain decimals, with either part of the number possibly missing, are converted, to their value |
| QuoteLog.SignedReads | src/dashboard/server.py:194 | the difference column is its amount with its sign, and unreadable when the amount is |
| QuoteLog.RaisedIff | src/dashboard/server.py:152-197 | the loop raises if and only if some line that matches the pattern and is due for a sample has a number that is no plain decimal |
| QuoteLog.ParseQuoteLog | src/dashboard/server.py:152-197 | the downsampling loop, stopping at the first number that cannot be converted |
| QuoteLog.LogRoundTrip | src/dashboard/server.py:152-197 | parsing a printed log gives the exact values of the surviving quotes, in order |
| QuoteLog.SurvivorsSpaced | src/dashboard/server.py:183-185 | samples are in order and at least the gap apart |
| QuoteLog.LeftOutIsClose | src/dashboard/server.py:183-185 | a quote without a sample is closer than the gap to an earlier sample, or to zero |

## Left out

- Binary floating point: shares and money are exact millionths, prices exact reals; nothing is claimed about bits of floats. Sums that the code rounds again to six decimals are already on that grid.
- Network, REST and websocket code, the CLOB client, notifications, environment, process supervision: I/O.
- Audit records, debug logs, statistics, and timestamps on orders; only the mock trade's due time and report time are kept.
- Position snapshots published after each step: they change no state. The status synchronisation workers are covered by order events that may arrive at any time.
- asyncio and threads below "any interleaving of lock-protected blocks": cancellation of tasks, fairness and liveness. Taking an event from a queue and handling it is one move; the engine's replacement timer is a parameter.
- The engine's own filter on the market of an event: for tracked orders it is the manager's mismatch check.
- Exact off-chain invalid shares across interleavings: a cancel success overwrites them, so no law about them holds; they are modelled, and only the pending/matched law is claimed.
- The dashboard's endpoints, the timestamp prefix of a log line (a line carries its timestamp), the live client, `RuntimeState`, strategies and window arithmetic: interface or easy.
- Case folding of outcome names is ASCII; digits of the log parser are ASCII; of the number forms that Python reads only plain decimals are, others are conversion errors.
- AtMostOneActive: assumes `InOrder`; `OneActiveIff` has the exact condition.
- FinishedStaysFinished: assumes `InOrder`; `FinalIff` has the exact condition.
- PositionShapeHolds: at a fee rate above one it assumes that a trade first reported as a buy stays one, because the cash of a report is that of its own side (`SideChangeBreaksShape`).
- NeverOversold: until settlement; `NeverOversoldIff` has the exact condition beyond it, `SoldAfterPayout` is a history that misses it.
- SettledSellsOnce: assumes `StableTrade` and that after the settlement exactly the settling sells are confirmed; `PaidOrSoldIff` assumes nothing.
- NoSecondOrder: until settlement. A target 0.10 or more below what is settling in can take a second sell, as `SecondSell` shows; `PlacesIff` is the exact guard.
- HandleDesired: composes `DecideNow` and `Perform` with nothing in between, as `HandleDesiredPositions` does twice; the halves and `Desk` have the interleavings.
- QuoteFillsWhatItCrosses: the list is taken and matched without interference; `ExchangeRuns` covers stale lists, as its match operations may name any order at any time.
