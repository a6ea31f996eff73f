# A verified model of the trading core

The repository trades binary prediction contracts on Kalshi. This project models the stateful code
whose mistakes would cost money or evidence, and proves what it keeps over every run:

* the **paper matching engine** (`src/btc15/execution.py`): orders, fills, exits, settlement, checkpoints;
* the **live order protocol** (`src/btc15/manual_trading.py`, `src/btc15/live_automation.py`): a journal, a
  client that may lose any reply, an exchange that decides in its own time, and the lock that lets stops
  overtake buys;
* **order-book replication** and the **recovery gate** (`src/btc15/engine.py`, `src/btc15/domain.py`,
  `src/btc15/collector_recovery.py`);
* the **shared read budget** (`src/btc15/read_budget.py`);
* **accounting and audit** (`src/btc15/live_loss_guard.py`, `src/btc15/live_fallback.py`,
  `src/btc15/order_history.py`, `src/btc15/research_archive.py`, and the retained recorder
  `reports/recorder-simplification-20260922/research_log.before.py`).

`dafny verify dfyconfig.toml` checks everything.

## How it is organised

Each component has a pure description (states, events, one `Step` function with the source's branches and
errors), lemmas over all its runs, and a class whose methods work as the source does, field by field and
loop by loop, each proved equal to the described step.

| files | what they hold |
|---|---|
| `TickGrid`, `OrderBook`, `Replication` | tick grid, book, book replication |
| `RecoveryGate` | the two-thread gate on entries |
| `TokenBucket`, `SubmissionSlot` | the shared budget, the stop-priority lock |
| `Recorder`, `Archive` | the lossy recorder and its two checkers |
| `Accounting`, `AccountingAgreement`, `AccountingLoops` | two profit routines, when they agree and by how much they part, their loops |
| `HistoryCache` | the revision-keyed cache |
| `LiveOrders` | the live protocol: journal rules, world, steps |
| `LiveInvariant`, `LiveSafety`, `LiveUniqueness` | its invariant, its safety over runs, one unresolved order per market |
| `LiveLocks`, `LiveJournal`, `LiveLateSave` | the market locks, the journal's own figures, a run in which one late save spoils them |
| `LiveTrading` | the client object |
| `Fees`, `Execution` | the fee accumulator; every operation of the paper engine on one market |
| `ExecutionInvariant`, `ExecutionHistory`, `ExecutionAccounting`, `ExecutionEntry`, `ExecutionDepth`, `ExecutionExit`, `ExecutionCheckpoint` | its invariant, what its records keep, and its results |
| `ExecutionResale` | a run that sells the same displayed contract twice |
| `PaperPortfolio`, `PaperExecutor` | all markets together; the engine as an object |
| `Wrappers` | `Option` and `Result` |

Units. Prices are integers in 1/10000 dollar, quantities in 1/10000 contract (a lot is 0.01 contract), money
in 1/100000000 dollar; `TickGrid` is generic in the unit, `LiveOrders` counts hundredths of a contract,
`Accounting` and `TokenBucket` use reals. Arithmetic is exact.

Concurrency. A stretch of code between two awaits, or a region under a lock, is one step; steps of different
tasks interleave freely, any task may be cancelled at an await, and a crash drops every task and lock and keeps
the journal and the exchange.

Identity. The engine draws a new opportunity id for every decision it may submit (`src/btc15/engine.py:1069`). Restarts,
and the roll-back of an operation that raises, both go through the checkpoint; they give the desk back in
every run with unused ids (`ExecutionCheckpoint.RestoreReturnsTheDesk`; exactly when, for any ids:
`ExecutionCheckpoint.RestoreIsExactIff`).

## Where the code does not keep the promise

Each has a concrete run or input, and the exact condition, for all inputs, under which the promise holds or fails.

* A **zero-latency submission** matches inside its own transaction, so an interrupted full-size entry keeps
  the part already bought (`ExecutionEntry.ZeroLatencyKeepsAPartialEntry`); an accepted one does so exactly when
  its match is attempted with depth enough and the first closed gate lies strictly inside it
  (`ExecutionEntry.ZeroLatencySubmitIsPartialIff`). Called on its own, the match is always all or nothing.
* **Consumed exit depth** is keyed by price without a side. Watching the book while the other side is held makes
  the engine forget it (`ExecutionResale.OtherSideForgets`), and one displayed contract is sold twice
  (`ExecutionResale.DepthIsSoldTwice`); one observation forgets exactly under the condition of
  `ExecutionDepth.OtherSideKeepsAccountIff`, and over any run no more is sold than displayed and so forgotten
  (`ExecutionDepth.SalesAreShownOrForgotten`).
* The **status page** reconciles an order under no lock. A late save can reopen a completed row beside a newer
  one (`LiveUniqueness.StaleStatusCheckReopens`, exactly when: `LiveUniqueness.StaleReadBreaksTheRuleIff`), and can
  forget a purchase already sold, so that recorded sales exceed recorded purchases
  (`LiveLateSave.LateSaveUncoversASale`, exactly when: `LiveJournal.LateSaveUncoversIff`). What may trade at the
  exchange stays unique and covered even then.
* A **damaged budget file** forgets a running penalty (`TokenBucket.DamageForgetsPenalty`): a request inside it is
  granted exactly when the refill since the file was first touched covers what it requires
  (`TokenBucket.DamagedPenaltyGrantsIff`).
* The **recorder** can close cleanly with an unmarked tail on a full disk, publish past the last marker when a
  capture follows the final lock region, and leave its last part file unpublished on an undrained close
  (`Recorder.LowDiskLeavesTailUnmarked`, `Recorder.LateCaptureIsUntiled`, `Recorder.UndrainedCloseHidesTheTail`,
  exact condition in `Recorder.PublishedRangeIsTiledIff`). `report` accepts a gap marker that points backwards
  (`Archive.BackwardMarkerIsAccepted`); what it accepts covers the range exactly when no marker does
  (`Archive.AcceptedChainCoversIffGenuine`).
* **Snapping** a price outside (0, 1) can miss an executable tick (`TickGrid.SnapAboveOneMissesTicks`, exactly when:
  `TickGrid.SnapIsRightIff`). On a grid finer than four decimals **quoting** changes the
  chosen limit exactly when it has more decimals (`TickGrid.QuoteIsExactIff`), and the order can then be refused although
  its limit is biddable (`TickGrid.FinerGridIsRefused`, exactly when: `TickGrid.ChosenLimitIsRefusedIff`). It never bids
  above its cap (`TickGrid.QuoteStaysWithinCap`).
* The **two profit routines** part on sales recorded before the first purchase
  (`AccountingAgreement.EarlySaleDisagrees`): on every closed trade the guard accepts they differ by those sales'
  proceeds less the payout the dashboard credits on them (`AccountingAgreement.ClosedTradeDiffersBy`), and they agree
  exactly under the condition of `AccountingAgreement.ClosedTradeAgreesIff`. A sale spanning midnight raises by design
  (`AccountingAgreement.CrossDaySaleStopsTheDay`).

## Model

| member | source | states |
|---|---|---|
| `ExecutionInvariant.EveryRunKeepsInv` | src/btc15/execution.py:69-89 | every run of submissions, matches, trades, quotes, pauses, quarantines, recoveries and settlements keeps ledger, order, exit, attempt, queue and settlement invariants, raised operations included |
| `ExecutionInvariant.FillKeeps` | src/btc15/execution.py:765-853 | a fill keeps the position equal to the recorded fills and to the order's filled quantity |
| `ExecutionInvariant.PlacedKeeps` | src/btc15/execution.py:606-692 | an accepted entry is placed without its risk reservation ever being refused, and starts a well-formed order in the right cycle and attempt |
| `ExecutionInvariant.ClaimMeans` | src/btc15/execution.py:606-620 | a retry stays in its cycle, a re-entry opens the next, and no order is ready for both |
| `ExecutionInvariant.SettleKeeps` | src/btc15/execution.py:1703-1854 | every settlement attempt, with any evidence and review, keeps the books; one that takes effect leaves no position and follows no earlier one |
| `ExecutionAccounting.InventoryIsConserved` | src/btc15/execution.py:790-853 | over every run the position is all recorded purchases less all sales and redemptions |
| `ExecutionAccounting.CashIsConserved` | src/btc15/execution.py:1503-1603 | over every run all cash moved by fills, fees and payouts is the reported profit plus the open position's running balance |
| `ExecutionAccounting.EveryTradeBalances` | src/btc15/execution.py:1580-1603 | every closed trade's net is its own fills' proceeds and payout less cost and fees, and a trade closed by sales has nothing left |
| `ExecutionAccounting.PositionIsItsOrder` | src/btc15/execution.py:806-812 | over every run bought equals order quantity minus remaining, on the order's side, with 0 < held <= bought |
| `ExecutionAccounting.ReservedWhileAtRisk` | src/btc15/execution.py:622-728 | risk is reserved exactly while an order works or a position is open |
| `ExecutionAccounting.SettlementPays` | src/btc15/execution.py:1801-1817 | an effective settlement pays each remaining contract once, on the winning side only, and closes the trade |
| `ExecutionHistory.SettlementIsFinal` | src/btc15/execution.py:1709-1713 | once a market is settled in any run, every later settlement, with any result, evidence and review and after any further events, leaves its desk exactly as it is |
| `ExecutionHistory.StepAppends` | src/btc15/execution.py:318-336 | no event loses or changes a record, and each appends only the kinds that are its own: only submissions submit, only settlements settle, only a position's market records a result |
| `ExecutionAccounting.SettledAtMostOnce` | src/btc15/execution.py:1786-1800 | over every run a market is settled at most once |
| `ExecutionAccounting.AttemptsAreBounded` | src/btc15/execution.py:365-381 | over every run no cycle has more than max_entry_retries + 1 submissions |
| `ExecutionAccounting.OneTradeFitsOneOrder` | src/btc15/execution.py:338-348 | with one trade per market, everything ever bought there fits in one order |
| `ExecutionAccounting.PassiveFillsWaitTheirTurn` | src/btc15/execution.py:855-904 | a resting order's fills never exceed the eligible volume beyond the queue ahead at submission, and are zero while any queue remains |
| `ExecutionAccounting.EveryPurchaseServesItsOrder` | src/btc15/execution.py:765-789 | every purchase of every run fills an order submitted before it, in whole lots, at no more than its limit and at least the latency after its submission |
| `ExecutionAccounting.NoOrderOverfills` | src/btc15/execution.py:786-804 | over every run no order is filled beyond its size |
| `ExecutionAccounting.RestrictedMarketsDoNotTrade` | src/btc15/execution.py:781-785 | while a market is paused or quarantined no event buys or sells there |
| `ExecutionEntry.FullEntryIsAllOrNothing` | src/btc15/execution.py:941-1037 | whatever rises between levels, a full-size match leaves the desk as it was, the order wholly filled, or nothing bought and the order cancelled |
| `ExecutionEntry.MatchIsWholeOrInterrupted` | src/btc15/execution.py:980-1022 | with enough on-grid depth the level loop ends with the whole order or is interrupted, never in between |
| `ExecutionEntry.FullEntriesAreNeverPartial` | src/btc15/execution.py:941-1037 | over every run with a positive latency no full-size order is ever left partly filled |
| `ExecutionEntry.ZeroLatencySubmitIsPartialIff` | src/btc15/execution.py:689-692 | for every accepted zero-latency full-size submission: it keeps a partial position exactly when its match is attempted with enough on-grid depth and the first closed gate lies strictly inside it |
| `ExecutionEntry.ZeroLatencyKeepsAPartialEntry` | src/btc15/execution.py:69-89 | a concrete zero-latency submission keeps one contract of two |
| `ExecutionDepth.DepthIsSoldOnce` | src/btc15/execution.py:906-939 | after any run, over any stretch of one-sided trading, the quantity sold at a price is at most the depth displayed there at its start plus every later rise |
| `ExecutionDepth.SalesAreShownOrForgotten` | src/btc15/execution.py:906-939 | after any run, over any stretch whatever sides are held, what positions on one side sell at a price is at most the depth displayed there at its start, plus every later rise, plus what observations made while the other side was held put back on offer |
| `ExecutionDepth.SellLevelsKeepAccount` | src/btc15/execution.py:1474-1508 | an exit pass moves depth at a price from on offer to sold, never more |
| `ExecutionDepth.ObserveKeepsAccount` | src/btc15/execution.py:906-939 | capping consumption at a smaller display changes nothing on offer, whether or not the observation was usable |
| `ExecutionDepth.OtherSideKeepsAccountIff` | src/btc15/execution.py:925-935 | an observation for the other side keeps this side's account exactly when the other ladder shows at least what was consumed or at least what this side shows |
| `ExecutionResale.OtherSideForgets` | src/btc15/execution.py:925-935 | a run from the empty desk: a YES contract is sold at 0.50, a NO contract is bought, and an observation of the unchanged book puts the YES contract back on offer |
| `ExecutionResale.DepthIsSoldTwice` | src/btc15/execution.py:925-935 | continued, two contracts are sold at 0.50 although the book never changes and shows one |
| `ExecutionExit.EverySaleServesItsIntent` | src/btc15/execution.py:1428-1467 | every sale of every run carries out the last intent before it, undropped, at least the latency later and on a book received at least the latency later |
| `ExecutionExit.ExitPassIsAdmissible` | src/btc15/execution.py:1476-1508 | an exit pass sells only at displayed bids on the grid, in whole lots, no more than a bid shows, and for a limited exit never below its limit |
| `ExecutionExit.CommittedExitsHold` | src/btc15/execution.py:1199-1256 | a hard stop, or any reason under full-position execution, holds in every later state until the position closes |
| `ExecutionExit.ShortcutsRefineCommit` | src/btc15/execution.py:1333-1397 | where the monitor skips its transaction, the transaction would have changed at most the event last looked at, and the lifecycle state only from exiting back to open |
| `ExecutionExit.WaitingSkipsNothing` | src/btc15/execution.py:1348-1360 | waiting on an unripe or already seen intent, the transaction would have returned the desk unchanged |
| `ExecutionExit.NothingToSellSkipsNothing` | src/btc15/execution.py:1361-1384 | with no executable level left, the transaction would have sold and recorded nothing |
| `ExecutionExit.QuietQuoteSkipsNothing` | src/btc15/execution.py:1284-1293 | a quote without reason and without new extreme would have changed nothing |
| `ExecutionCheckpoint.RestoreReturnsTheDesk` | src/btc15/execution.py:139-198 | for every run whose accepted entries bring unused opportunity ids and any listing of the consumed depth, restoring the desk's checkpoint gives the desk back |
| `ExecutionCheckpoint.RestoreIsExactIff` | src/btc15/execution.py:175-182 | for every run at all, a restart gives the desk back exactly when its order works or, if it bought nothing, shares its id with no closed trade |
| `ExecutionCheckpoint.CommittedExitsSurviveRestart` | src/btc15/execution.py:162-198 | with unused ids at entry, a committed exit survives a restart and holds until the position closes |
| `PaperPortfolio.EveryDeskKeepsItsBooks` | src/btc15/execution.py:200-204 | over every run of all markets together, kill switch included, every market keeps its invariants |
| `PaperPortfolio.AtMostTwoStrikes` | src/btc15/execution.py:438-444 | over every run at most two strikes of an hourly event have any recorded purchase, whenever it was made, and all of those count as occupied, of which there are at most two |
| `PaperPortfolio.FilledStays` | src/btc15/execution.py:438-444 | over every run a strike once filled stays among the filled, through closing, re-entry and settlement |
| `PaperPortfolio.OccupyingTakesAnEntry` | src/btc15/execution.py:438-444 | only an accepted entry, made while the event had room, can make a strike occupied |
| `PaperPortfolio.RedeliveryChangesNothing` | src/btc15/execution.py:855-860 | once a public trade has been taken, delivering its id again at any later point, to any market and with any contents, leaves the whole rest of the run as if it had not come |
| `PaperPortfolio.EachTradeCountsOnce` | src/btc15/execution.py:855-860 | over every run each trade counts at most once towards a market's volume |
| `PaperExecutor.MarketDesk.FillOrder` | src/btc15/execution.py:765-853 | the method does what the fill operation says in every branch and raises when it does |
| `PaperExecutor.MarketDesk.MatchAsks` | src/btc15/execution.py:1003-1022 | the loop over displayed asks ends as the matching function says: run out, stopped, interrupted or raised |
| `PaperExecutor.MarketDesk.FullSizeAvailable` | src/btc15/execution.py:980-1002 | true exactly when every reachable level is on the grid and their lots cover the order |
| `PaperExecutor.MarketDesk.Match` | src/btc15/execution.py:941-947 | an interrupted full-size match is undone before the order is cancelled; a raise restores everything |
| `PaperExecutor.MarketDesk.SubmitEntry` | src/btc15/execution.py:399-693 | the first failing check is reported and changes nothing; otherwise the order is placed and, without latency, matched in the same transaction |
| `PaperExecutor.MarketDesk.OnTrade` | src/btc15/execution.py:855-904 | a public trade passes the queue first and fills with the rest |
| `PaperExecutor.MarketDesk.SellInto` | src/btc15/execution.py:1474-1575 | the loop over displayed bids sells what the exit function says and closes the position when empty |
| `PaperExecutor.MarketDesk.CommitMonitor` | src/btc15/execution.py:1399-1578 | extremes, dropped intents, new intents and executions follow the transaction function; a raise restores everything |
| `PaperExecutor.MarketDesk.ApplyMonitor` | src/btc15/execution.py:1333-1397 | both shortcuts, with their level scan, then the transaction |
| `PaperExecutor.MarketDesk.MonitorQuote` | src/btc15/execution.py:1190-1331 | the whole monitor with its separate transactions |
| `PaperExecutor.MarketDesk.SettleDesk` | src/btc15/execution.py:1703-1854 | settlement with its blocked, repeated, refused and effective outcomes |
| `Fees.TotalIsExactPlusCarry` | src/btc15/strategies/settlement_edge/rules.py:10-28 | over any fills the total charged is the exact total plus what is still carried, and the carry is never negative |
| `Fees.ChargeIsNonnegative` | src/btc15/strategies/settlement_edge/rules.py:15-28 | no fee and no carry is negative |
| `Fees.BalanceStaysAligned` | src/btc15/strategies/settlement_edge/rules.py:15-28 | every fill moves the balance by a whole number of precision units |
| `Fees.FeeAccumulator.ChargeFill` | src/btc15/strategies/settlement_edge/rules.py:15-28 | the accumulator charges and carries as the fee function says |
| `LiveSafety.NeverOversold` | src/btc15/live_automation.py:1015-1094 | with any lost replies, late acceptances, stale reads and crashes, what the bot sold plus what its outstanding sales may still sell never exceeds what it bought |
| `LiveSafety.OneLiveOrder` | src/btc15/manual_trading.py:279-319 | over every run at most one order of a market can still trade |
| `LiveSafety.PostedAtMostOnce` | src/btc15/manual_trading.py:688-692 | over every run no order is sent twice |
| `LiveSafety.RefundedIsNeverSent` | src/btc15/live_automation.py:39-48 | a refunded entry attempt was never sent and never will be, in any continuation |
| `LiveSafety.EntriesAreBounded` | src/btc15/live_automation.py:1101-1106 | over every run the bot sends at most max_entry_retries + 1 purchases in a market |
| `LiveSafety.NoEntryAfterATrade` | src/btc15/live_automation.py:1016-1026 | once a bot order of a market has traded, no later bot order there is a purchase |
| `LiveSafety.EveryRunKeepsInv` | src/btc15/manual_trading.py:685-847 | every interleaving keeps every row and every task's copy honest about its order |
| `LiveInvariant.JournalIsTrue` | src/btc15/live_automation.py:1015-1026 | where every order of a market is resolved, the journal's totals are the exchange's |
| `LiveInvariant.PostKeeps` | src/btc15/manual_trading.py:791-795 | the one sending step sends only an order never sent before |
| `LiveJournal.RecordedSalesAreCovered` | src/btc15/live_automation.py:800-886 | where reads of bot rows are saved fresh, whoever made them, recorded bot sales plus unresolved ones at full size never exceed recorded bot purchases, and only a market's latest order can be an unresolved bot order |
| `LiveLocks.MarketLocksKeepReadsFresh` | src/btc15/live_automation.py:800-886 | by the market locks, in every run in which the status page leaves bot rows alone every read of a bot row is saved fresh |
| `LiveJournal.LocksKeepSalesCovered` | src/btc15/live_automation.py:800-886 | so in every such run recorded bot sales, unresolved ones whole, never exceed recorded bot purchases |
| `LiveJournal.LateSaveUncoversIff` | src/btc15/manual_trading.py:243-259 | one late save of a bot row uncovers the market exactly when recorded sales, the reopened one counted whole, exceed what remains recorded as bought |
| `LiveLateSave.LateSaveUncoversASale` | src/btc15/manual_trading.py:894-907 | a concrete run from the empty journal: the status page reads a purchase unfilled, it fills and is sold, and the page's save forgets it |
| `LiveUniqueness.OneUnresolvedOrder` | src/btc15/manual_trading.py:279-319 | when reads are saved fresh, no market has two unresolved orders and the account never has two besides the bot's own sales |
| `LiveUniqueness.StaleReadBreaksTheRuleIff` | src/btc15/manual_trading.py:243-259 | a save of a read breaks uniqueness exactly when it reopens a resolved unguarded row beside an unresolved one |
| `LiveUniqueness.StaleStatusCheckReopens` | src/btc15/manual_trading.py:894-907 | a concrete run from the empty journal in which the status page leaves two unresolved orders in one market |
| `LiveTrading.LiveClient.ClaimOrder` | src/btc15/manual_trading.py:279-319 | a known id returns its row or is refused for different instructions; a new id is refused exactly when an unresolved order blocks it |
| `LiveTrading.LiveClient.Save` | src/btc15/manual_trading.py:243-277 | a completed resting row is not reopened, its fills never regress, and stamps are never lost |
| `LiveTrading.LiveClient.DecideMarket` | src/btc15/live_automation.py:992-1112 | a decision is taken exactly when recorded fills, unresolved rows and consumed attempts permit it |
| `LiveTrading.LiveClient.SendOrder` | src/btc15/manual_trading.py:791-795 | the step that sends the order |
| `LiveTrading.LiveClient.OnLostReply` | src/btc15/manual_trading.py:838-845 | a lost reply leaves the row unknown and frees the slot |
| `LiveTrading.LiveClient.SaveReaderRead` | src/btc15/manual_trading.py:557-591 | the save that ends a reconciliation |
| `SubmissionSlot.EveryRunKeepsInv` | src/btc15/manual_trading.py:632-655 | over every run the slot is exclusive, the counter exact, and the drained event set exactly when no stop is pending |
| `SubmissionSlot.NoBuyOvertakesStop` | src/btc15/manual_trading.py:632-655 | no step lets a buy in while a stop is pending |
| `SubmissionSlot.SomeoneCanStep` | src/btc15/manual_trading.py:632-655 | while any task waits, some task can step without an arrival or a cancellation |
| `SubmissionSlot.EveryRequestCompletes` | src/btc15/manual_trading.py:632-655 | without new arrivals every run is finite and can only stop when nobody waits |
| `SubmissionSlot.SlotState.Arrive` | src/btc15/manual_trading.py:633-645 | a task's first segment: count a stop, then enter, queue or park |
| `SubmissionSlot.SlotState.Cancel` | src/btc15/manual_trading.py:647-655 | a task cancelled at any await leaves as `finally` makes it |
| `Replication.EveryStreamIsReplicated` | src/btc15/engine.py:385-439 | over every stream with losses, repeats, reconnects, resubscriptions and watchlist changes, a book marked valid equals the exchange's at its subscription's last accepted number, with positive levels inside (0, 1) and uncrossed |
| `Replication.OnlySnapshotsRevive` | src/btc15/engine.py:564-578 | only an accepted snapshot of that market makes a book valid again |
| `Replication.InOrderStreamStaysValid` | src/btc15/engine.py:564-578 | after any uninterrupted stream over a new connection, of any length and over any markets, whose watched messages follow their snapshot and publish possible ladders, every watched market snapshotted so far is valid |
| `Replication.CollectorEngine.IngestRow` | src/btc15/engine.py:327-635 | the object handles a row as the stream function says, and its result tells exactly whether the row was taken |
| `OrderBook.DeltaKeepsSound` | src/btc15/domain.py:287-322 | although a delta rechecks one level, the whole book stays sound |
| `OrderBook.Book.ApplySnapshot` | src/btc15/domain.py:280-285 | the new ladders, times and validity, invalid exactly on an impossible or crossed ladder |
| `OrderBook.Book.ApplyDelta` | src/btc15/domain.py:287-309 | accepted exactly when the changed book is possible; what a rejected delta leaves behind |
| `RecoveryGate.PendingRecoveryKeepsEntriesPaused` | src/btc15/collector_recovery.py:38-64 | for every interleaving a pending drain or catch-up means entries are paused |
| `RecoveryGate.OnlyReconnectEndsADrain` | src/btc15/collector_recovery.py:66-77 | a requested drain lasts until the worker reconnects |
| `RecoveryGate.NoReasonIffReady` | src/btc15/collector_recovery.py:107-224 | a check finds no reason exactly when every listed condition holds |
| `RecoveryGate.OpensOnlyWithEvidence` | src/btc15/collector_recovery.py:204-224 | in every state reachable from startup the gate opens only at the locked half of a check, on evidence gathered since the last reconnect |
| `RecoveryGate.ReopensOnlyAfterRecovery` | src/btc15/collector_recovery.py:38-224 | from any drain reached since startup, entries resume only after a reconnect and then on fresh metadata, a reference tick and a sequenced snapshot of every watched market, all seen since |
| `RecoveryGate.ReadyCheckOpens` | src/btc15/collector_recovery.py:204-224 | in every reachable state a check that finds everything in place does open the gate |
| `RecoveryGate.CollectorRecovery.ScanLadder` | src/btc15/collector_recovery.py:145-182 | the scan collects exactly the reasons, stalls and usable books of the watched markets |
| `TokenBucket.WindowBound` | src/btc15/read_budget.py:104-130 | over any interleaving with a nondecreasing clock the cost granted in a window, plus what remains, is at most the tokens at its start plus rate times length |
| `TokenBucket.GrantLeavesReserve` | src/btc15/read_budget.py:104-115 | an ordinary grant leaves the whole stop reserve, a stop grant never overdraws |
| `TokenBucket.PenaltyHolds` | src/btc15/read_budget.py:123-130 | nothing is granted to anyone during a penalty, while the file is undamaged |
| `TokenBucket.DamageForgetsPenalty` | src/btc15/read_budget.py:78-94 | a concrete damaged file forgets the penalty |
| `TokenBucket.DamagedPenaltyGrantsIff` | src/btc15/read_budget.py:78-115 | after damage, whatever the file held, the next request is granted exactly when the refill since the first touch covers what it requires, any refused requests between them changing nothing |
| `TokenBucket.FirstRetrySucceeds` | src/btc15/read_budget.py:104-121 | an undisturbed request succeeds at its first retry after the computed delay exactly when the bucket can ever hold what it requires |
| `TokenBucket.ReadBudget.Acquire` | src/btc15/read_budget.py:117-121 | the loop raises exactly on an unsupported cost and otherwise sleeps at most once |
| `TickGrid.Snap` | src/btc15/domain.py:106-118 | the nearest valid tick in the requested direction; raises exactly when none exists |
| `TickGrid.SnapAboveOneMissesTicks` | src/btc15/domain.py:106-118 | at 1.05 the promise fails |
| `TickGrid.SnapIsRightIff` | src/btc15/domain.py:106-118 | at any price, from bands and price alone: `snap` keeps its promise exactly when no band has an executable tick on that side, or a band whose nearest one is the nearest of all has no further point before the price |
| `TickGrid.ValidTickScan` | src/btc15/domain.py:120-127 | true exactly on the grid points strictly inside (0, 1) |
| `TickGrid.SnapBuyLimit` | src/btc15/manual_trading.py:46-66 | the largest price not above the cap whose YES image is a valid tick; refused exactly when none is |
| `TickGrid.SnappedLimitPassesGridCheck` | src/btc15/manual_trading.py:80-97 | the chosen limit survives quoting and the later grid check |
| `TickGrid.QuoteIsExactIff` | src/btc15/manual_trading.py:80-97 | quoting keeps the chosen limit exactly when its YES price has at most four decimals, and raises it exactly when it rounds up |
| `TickGrid.FinerGridIsRefused` | src/btc15/manual_trading.py:770-779 | a concrete limit under a cap of 0.04 on a finer grid is refused after quoting |
| `TickGrid.QuoteStaysWithinCap` | src/btc15/manual_trading.py:80-97 | on any grid and for any cap of at most four decimals, which are all an order can carry, the quoted price never bids above the cap |
| `TickGrid.AcceptedQuoteBidsNoMore` | src/btc15/manual_trading.py:770-779 | an order that passes the grid check bids its chosen limit exactly or below it |
| `TickGrid.ChosenLimitIsRefusedIff` | src/btc15/manual_trading.py:770-779 | the grid check refuses the chosen limit exactly when it has more than four decimals and quoting rounds it towards the cap, or away to a point off the grid |
| `AccountingAgreement.ClosedTradeDiffersBy` | src/btc15/live_fallback.py:160-168 | for every closed trade the guard accepts, daily results over its days exceed the dashboard's net by the proceeds of sales recorded before the first purchase, less the payout the dashboard credits on them |
| `AccountingAgreement.ClosedTradeAgreesIff` | src/btc15/live_loss_guard.py:16-87 | for every closed trade the two agree exactly when the guard finds no row wrong, no sale spans midnight, no more was sold than bought, and those proceeds equal that payout |
| `AccountingAgreement.ClosedTradeAgrees` | src/btc15/live_loss_guard.py:16-87 | in particular for a closed one-sided trade whose sales completed on the day they were created |
| `AccountingAgreement.AccountingsAgree` | src/btc15/live_fallback.py:95-262 | the same for any book of markets, traded or not |
| `Accounting.SharesSumToBasis` | src/btc15/live_loss_guard.py:78-86 | the pro-rata shares of sales and remainder sum to the full basis |
| `Accounting.EarlySkipLosesNothing` | src/btc15/live_loss_guard.py:29-31 | skipping inactive markets never drops a gain or a loss |
| `AccountingAgreement.CrossDaySaleStopsTheDay` | src/btc15/live_loss_guard.py:70-75 | a sale spanning midnight raises on the day it completes |
| `AccountingAgreement.EarlySaleDisagrees` | src/btc15/live_fallback.py:160-168 | a manual sale recorded before the first purchase makes the two routines differ by half a dollar |
| `AccountingLoops.ComputeDailyPnl` | src/btc15/live_loss_guard.py:16-87 | the nested loops compute the daily result, raising exactly what and when it says |
| `AccountingLoops.ComputeFallback` | src/btc15/live_fallback.py:114-261 | the loops compute the market's report: skipped, open or closed with its figures |
| `HistoryCache.PrefixSelectsLikeReader` | src/btc15/order_history.py:20-22 | the triggers' prefix and the reader's LIKE pattern select the same rows |
| `HistoryCache.EqualRevisionMeansEqualHistory` | src/btc15/order_history.py:31-69 | over any inserts, replacements, updates and deletes an equal revision means equal history-relevant rows |
| `HistoryCache.DiagnosticsKeepRevision` | src/btc15/order_history.py:59-63 | a diagnostic update keeps the revision |
| `HistoryCache.EveryFallbackIsCurrent` | src/btc15/live_fallback.py:84-93 | with any callers, writers and snapshots interleaved, a returned history was committed at or after the call's start, or inside a snapshot at or after the start of its context's outermost one |
| `HistoryCache.SnapshotIsStable` | src/btc15/live_fallback.py:69-87 | while a snapshot is open every call of its context returns the one history it was opened with, whatever is written meanwhile |
| `HistoryCache.OrderJournal.Store` | src/btc15/order_history.py:45-57 | insert-or-replace with its two triggers |
| `HistoryCache.FallbackCache.Fallback` | src/btc15/live_fallback.py:84-93 | returns the frozen history inside a snapshot and otherwise recomputes exactly when the key differs |
| `HistoryCache.FallbackCache.EnterSnapshot` | src/btc15/live_fallback.py:69-79 | freezes what the call returned, nested snapshots included |
| `Recorder.EveryRunTiles` | reports/recorder-simplification-20260922/research_log.before.py:124-202 | for every interleaving captured = written + dropped + queued + in flight, and records with gap ranges tile 1 to the last written number in order |
| `Recorder.PublishedRangeIsTiledIff` | reports/recorder-simplification-20260922/research_log.before.py:527-570 | what a reader finds of any published archive tiles the whole captured range exactly when nothing was captured after the final region, the tail was marked or empty, and the close was drained or left nothing in the open part file |
| `Recorder.GapsEqualDrops` | reports/recorder-simplification-20260922/research_log.before.py:402-432 | on a tiled close the gap markers a reader finds account for exactly the dropped records |
| `Recorder.LowDiskLeavesTailUnmarked` | reports/recorder-simplification-20260922/research_log.before.py:492-545 | a clean close on a full disk leaves a record neither present nor marked |
| `Recorder.LateCaptureIsUntiled` | reports/recorder-simplification-20260922/research_log.before.py:527-548 | a capture after the final region is published beyond the last marker |
| `Recorder.UndrainedCloseHidesTheTail` | reports/recorder-simplification-20260922/research_log.before.py:527-548 | a concrete undrained close is published while its last part file stays unreadable |
| `Recorder.ResearchLog.EmitRecord` | reports/recorder-simplification-20260922/research_log.before.py:130-194 | a record is queued or counted as dropped, in every branch |
| `Recorder.ResearchLog.StoreTaken` | reports/recorder-simplification-20260922/research_log.before.py:497-518 | the gap before a record, then the record |
| `Archive.Report` | src/btc15/research_archive.py:135-187 | no problem is reported exactly when the lines chain from 1 to the published number, for genuine markers exactly when they cover it |
| `Archive.BackwardMarkerIsAccepted` | src/btc15/research_archive.py:154-170 | a marker pointing backwards hides a duplicate |
| `Archive.AcceptedChainCoversIffGenuine` | src/btc15/research_archive.py:154-170 | of what the checker accepts, the lines cover the range exactly when every marker points forward |
| `Archive.RebuiltLossIsExact` | src/btc15/research_archive.py:97-118 | for every archive and status, observed plus reported missing equals the larger of the published high water and what the segments reach |
| `Archive.CompleteIffEveryRecordRetained` | src/btc15/research_archive.py:97-124 | a capture is called complete exactly when every number up to the larger of those is there in order |
| `Archive.ReportAcceptsCleanCloses` | src/btc15/research_archive.py:154-187 | on what a reader finds of any published archive of the recorder, the checker finds nothing exactly under the recorder's own condition for a tiled close |

## Left out

* Transport, signing, routes, dashboards and static pages; logging, timing traces, audit payloads and messages.
* Signals, probability, lead, edge and price selection of an entry are verdicts given to `Execution.Submit`; so are risk sizing and the stop and value-exit signals given to the monitor, with their confirmation counters.
* The store is its effects: records, claims, lifecycle states and settlement evidence live on the desk. Records that only inform (rejections, warnings, stress and comparison rows, blocked-settlement notes) are not kept.
* Contract parsing and hashing: whether metadata matches the pinned contract is given.
* Floats and Decimals are exact; non-finite numbers do not occur; a remaining quantity is a whole number of lots, so rounding it to lots is the identity (proved).
* Sub-cent legacy queues and consumed depth in old checkpoints.
* `HALTED` operators and the engine's own state moves are one event, `EngineMove`.
* In the live protocol: prices, cooldowns, holdings and market sides narrow a decision and are not modelled; a bot market trades one side because only one entry can trade. Fill notifications, takeover and shutdown handling are not part of this model.
* The exchange fills no order beyond its size and decides each POST at most once; it may decide at any time after it was sent.
* In replication: the clock-reversal flag and processing failures are inputs; markets' metadata decides watchlists from outside.
* In the recovery gate the receipt thread is quiet during a reconnect, as its documentation says; stall durations are kept but promise nothing.
* In the recorder the deletion of old segments, compression and file formats.
* In the cache the store's own history revision, the other half of the key, the store transaction a snapshot holds, and databases without triggers.
* Daily exposure, bankroll and trade counters of the risk object; only its reservation is kept.
* File locks, process identity and real scheduling.
- Execution.Monitor: the snapshot of the monitor's value-exit confirmation counters is not kept, because they only feed the signals that are inputs here.
- ExecutionInvariant.PlacedKeeps: does not model the risk size itself, because `submit` reserves exactly the quantity it was just sized to, at the same price and instant; the size is an input.
- Archive.Report: does not model manifests, missing-context errors, receipt days or digests, because no sequence number depends on them.
- LiveTrading.LiveClient.DecideMarket: does not model cooldowns, quotes or holdings, because they can only refuse a decision the journal permits.
- AccountingLoops.ComputeFallback: does not list the fill records or the exit reason, because no figure depends on them.
- PaperPortfolio.EveryDeskKeepsItsBooks: does not sum profits over markets, because each market's cash is already conserved.
