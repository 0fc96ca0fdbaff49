# LpMaker: verified protocol and strategy models

A Dafny model of the parts of LpMaker whose correctness is hard to see by reading: protocols that
must survive a crash between any two durable writes, state machines that latch and count, exact
fixed-point arithmetic, caches, gates and ledgers. `dafny verify dfyconfig.toml` checks everything.

Each file is one component.

| file | component |
|---|---|
| `Slippage.dfy` | Q64.96 price bounds, liquidity, amounts and slippage minimums |
| `FeeGrowth.dfy` | unclaimed fees from fee growth, modulo 2^256 |
| `EvmTx.dfy` | nonce allocation, durable intent, broadcast, confirmation, fee replacement |
| `OrderJournal.dfy` | the exchange order journal, its recovery and its archive |
| `StrategyState.dfy` | frames, portfolios, strategy state and the edits shared by several callers |
| `DefaultStrategy.dfy` | the default strategy and its recovery progress |
| `EthStrategy.dfy` | the persistent and band strategies and the quick equity guard |
| `StrategyRuns.dfy` | whole runs of any strategy: halts, cooldowns, holding times, history |
| `EntryRearm.dfy` | the live loop around one-use entry permits |
| `Observations.dfy` | the epoch cache over the streamed header chain |
| `RequestGate.dfy` | the shared request gate |
| `Paper.dfy` | the paper ledger |
| `Performance.dfy` | the rolling fee history and its integral |
| `Maintenance.dfy` | manual reset and strategy migration as file operations |

## How the model is built

- A protocol is a total function `Step(state, action)`. One action is one durable write, one network
  call or one external event, `Crash` is an action, and a disabled action changes nothing. Everything
  the outside answers (RPC counters, receipts, exchange rows, fills, clock readings) is an arbitrary
  parameter of an action. `Run` folds actions; the results are lemmas about every `Run`.
- What the source edits in place is also written in place: classes and methods with loops whose
  postconditions equate the new state with the specification function.
- Money and prices are `real`. Where a formula needs a square root, the root is the given value.
  256-, 512- and 64-bit values are integers with their wrap-around, saturation or overflow written out.
- Hashes, signatures, addresses and JSON bodies are abstract values with equality. `EvmTx` takes the
  hash function as a parameter and needs no property of it.
- One EVM operation runs at a time (send lock, process lock); the periodic nonce refresh runs beside
  it and holds the nonce lock from its reads to its write. A missing nonce file reads as zeros. Any
  error or cancellation is an abort. The results hold until a reset clears the state directory.
- The exchange task is sequential: reconciliation and a live exchange never overlap. A client order ID
  is a lower-case key plus its spelling; age ties in a compaction are broken by key and spelling.
- Decision reasons are kept only where code reads them back: the stale-data prefix (`stale`) and the
  permit ID (`waiver`). Indicator results enter as the frame's `metrics` and `feature`.
- A crash before a checkpoint is saved loses the evaluation made since. For the strategy runs such a
  run is the run without the lost event, followed by a restart; a deployment is saved before it executes.
- The request loop reports a limit only while it holds the gate's permit (`src/evm/rpc.rs:97-145`), so
  the gate's protocol has no other limit; `UnheldLimitExactly` says what that is worth.
- Records of the state directory are what commands write there; segments that event-log rotation drops
  are not among them.
- The phase machines are evaluated on a `View` or `BandView`: everything the frame's arithmetic
  decides, computed once from the frame and the state.

## What the code does that one might not expect

- At the single lowest square-root price the lower slippage bound is one above the quote, so a price
  that did not move is rejected there (`QuoteInsideBounds`).
- If the exchange itself answers `not_submitted` for a POSTed order, the ledger shows a mark that is
  otherwise proof of non-submission (`NotSubmittedNeverPosted`, `MislabelledRun`).
- Deferring a deployment while inventory or a hedge is open pauses on the clock the strategy already
  had: the first entry of a fresh bot as well as a scale-up. Such a pause, and no other, can end before
  its full cooldown (`CooldownExactly`, `EarlyResumeRun`).
- While a plain reset started behind an installed but unfinished migration has its marker, the
  migration cannot be planned again (`ReplanExactly`, `InterleavedReset`); once that reset is done it can.
- At block number 2^64 - 1 the header chain's successor saturates (`SaturationExactly`, `SaturatedRun`),
  and a read that spans 2^64 invalidations passes for a current one (`SaveExactly`, `WrappedRead`).

## Model

The first 34 rows are the main results; then the lemmas around them, the exact conditions and the
concrete runs; the methods that work in place, each equal to the specification function the lemmas are
about, come last.

| member | source | states |
|---|---|---|
| `EvmTx.BroadcastSafety` | src/liquidity/uniswap_v3/tx.rs:333-486 | in every run two transactions handed to the network with one nonce have the same target, calldata, value and gas limit |
| `EvmTx.SlotNeverReplaced` | src/store.rs:255-280 | an occupied slot keeps its operation until that operation's own completion clears it |
| `OrderJournal.AtMostOncePosted` | src/hyperliquid/mod.rs:242-320 | in every run each client order ID is POSTed at most once, across requests, spellings and crashes |
| `OrderJournal.NotSubmittedNeverPosted` | src/hyperliquid/hedge.rs:255-289 | in every run records marked not submitted were never POSTed exactly when no accepted answer put that word on a POSTed order |
| `OrderJournal.NeverPostedLater` | src/hyperliquid/hedge.rs:255-265 | a record truly marked not submitted is never POSTed, whatever follows |
| `OrderJournal.RecordsStableOver` | src/hyperliquid/journal.rs:211-264 | from any point of a run to any later one a terminal status and a known exchange order ID never change and no record is lost |
| `OrderJournal.CompactionConserves` | src/hyperliquid/journal.rs:314-340 | every step of a compaction, finished or interrupted, leaves ledger and archive together unchanged and keeps unresolved and pointed-to orders hot |
| `OrderJournal.CompactionBounds` | src/hyperliquid/journal.rs:324-338 | a finished compaction leaves at most the configured number of other terminal orders, and those are the youngest |
| `Slippage.MintMinimumsSound` | src/liquidity/uniswap_v3/slippage.rs:140-163 | mint minimums succeed exactly under four caller-visible conditions, the last check never fires, and minimum <= amount used <= amount desired for both tokens |
| `Slippage.BurnMinimumsSound` | src/liquidity/uniswap_v3/slippage.rs:165-176 | burn minimums exist exactly for a valid quote, slippage and uint128 liquidity, and burning at any later price inside the bounds, in range or on either side, pays at least both |
| `FeeGrowth.UnclaimedIsInsideAccruals` | src/liquidity/uniswap_v3/mod.rs:258-310 | from any counters the reported fee is the floor of those accruals, modulo 2^256, times the liquidity, plus what was owed, or the overflow error |
| `DefaultStrategy.ResumeGated` | src/strategy/mod.rs:237-276 | in every run, with history not initial, a deployment out of Paused needs an unbroken pause whose clock has run the cooldown and the full witness of healthy hours |
| `DefaultStrategy.CooldownExactly` | src/engine/mod.rs:394-418 | a pause can end before the cooldown counted from its beginning exactly when an exposed deferral began it on an older clock and there is a cooldown |
| `DefaultStrategy.ScaleUpsGated` | src/strategy/mod.rs:281-294 | in every run, that of a fresh bot included, the n-th scale-up comes at least n recovery steps after the resume with share min(1, (n+1) x fraction) |
| `StrategyRuns.HaltIsFinal` | src/recovery.rs:193-219 | over any events from any state, permits, recoveries and deferrals included, a halt never ends and the peak never falls |
| `StrategyRuns.BandSpacing` | src/strategy/eth/band.rs:182-324 | in every band run with a monotone clock and no permit, deployments wait out the cooldown of every risk exit and recenterings keep the holding time, across recovery pauses and deferrals |
| `EthStrategy.EntrySafeAgrees` | src/strategy/eth/band.rs:346-364 | the quick guard is true exactly when a full evaluation with liquidity held sees no halt, global or episode drawdown |
| `EthStrategy.ExitsExactlyWhenUnsafe` | src/strategy/eth/band.rs:227-254 | without market danger, held liquidity is withdrawn exactly when the guard is false |
| `EntryRearm.OneEntryPerPermit` | src/engine/mod.rs:313-365 | across every crash and deferral each permit lets at most one waived deployment reach execution |
| `EntryRearm.HistoryNeverLost` | src/recovery.rs:73-116 | once established, in memory or on disk, entry history stays established through permits, crashes and restarts |
| `EntryRearm.SavedHaltSurvives` | src/recovery.rs:117-146 | a halt that reached a checkpoint outlives every restart, and nothing new executes behind it |
| `Observations.CachesFollowEpochs` | src/liquidity/uniswap_v3/observations.rs:84-97 | over every event sequence with any readers and saves, everything cached was read wholly within the current epoch |
| `Observations.VisibleIsCurrent` | src/liquidity/uniswap_v3/observations.rs:178-185 | whatever the snapshot, word, position and inventory readers are given was read in the current epoch and is young enough |
| `Observations.ConfirmedIsAncestor` | src/liquidity/uniswap_v3/observations.rs:199-216 | the confirmed header is the tip's ancestor exactly the configured number of links back |
| `RequestGate.GrantsSpaced` | src/evm/rpc/limit.rs:90-100 | each grant keeps the spacing in force at earlier grants and waits out every earlier deadline |
| `RequestGate.DeadlinesHold` | src/evm/rpc/limit.rs:101-111 | deadlines never move earlier and honour the backoff and Retry-After |
| `Paper.EquityConserved` | src/engine/paper.rs:46-291 | over every run equity is the starting capital plus market gains, fills against the mark and funding, minus exactly the recorded costs and fees |
| `Paper.ApplyBooks` | src/engine/paper.rs:110-278 | every application changes equity by minus the recorded costs plus the fill against the mark, on success and on failure |
| `Performance.HistoriesValidate` | src/monitor/performance.rs:58-82 | every history built from nothing by whole-second snapshots validates |
| `Performance.ObservedValid` | src/monitor/performance.rs:85-204 | every condition of validation holds again after any observation of a validated history, errors included, and with whole-second times the sample bound too |
| `Performance.FeesAreCounterDifference` | src/monitor/performance.rs:222-238 | fees over a window are the difference of the linearly interpolated counters, valued at one price |
| `Maintenance.UnblockedIsWhole` | src/engine/mod.rs:30-37 | at every crash point, with no marker left, nothing was removed and the old configuration stands, or the directory is clean and a migration's configuration is installed |
| `Maintenance.RemovedIsBackedUp` | src/engine/reset.rs:524-565 | nothing is removed before a complete copy of it exists |
| `Maintenance.ReplanExactly` | src/engine/migration.rs:36-114 | planning an interrupted migration again gives its exit and target bindings exactly when no other reset was started behind it with a different binding |
| `Slippage.Root` | src/liquidity/uniswap_v3/slippage.rs:66-69 | the integer square root: the greatest integer whose square fits |
| `Slippage.PriceBoundsExact` | src/liquidity/uniswap_v3/slippage.rs:59-74 | the bounds exist exactly for an executable quote and a slippage below 100%, and are exactly the extreme integer square roots whose squares lie within the slippage of the quoted square, clipped to executable prices |
| `Slippage.QuoteInsideBounds` | src/liquidity/uniswap_v3/slippage.rs:59-88 | the quote lies inside its own bounds, except the single lowest square root, whose lower bound is one above it |
| `Slippage.AmountsExact` | src/liquidity/uniswap_v3/slippage.rs:127-138 | both amounts are the exactly rounded quotients at the clamped price for every uint128 liquidity; no 512-bit product wraps and no 256-bit result overflows |
| `Slippage.Amount0Antitone` | src/liquidity/uniswap_v3/slippage.rs:127-138 | token0 never rises as the price rises, in either rounding |
| `Slippage.Amount1Monotone` | src/liquidity/uniswap_v3/slippage.rs:127-138 | token1 never falls as the price rises, in either rounding |
| `Slippage.MintAmountsFit` | src/liquidity/uniswap_v3/slippage.rs:106-138 | paying in the computed liquidity, rounded up, never exceeds either desired amount |
| `Slippage.MinimumsBelow` | src/liquidity/uniswap_v3/slippage.rs:169-176 | at every later price inside the bounds the minimums are at most the amounts, for both roundings |
| `Slippage.PoolPaysAmounts` | src/liquidity/uniswap_v3/slippage.rs:127-138 | the one rounded-down division equals the pool contract's two successive floor divisions |
| `FeeGrowth.InsideGrowth` | src/liquidity/uniswap_v3/mod.rs:285-299 | over any accruals and crossings, from any outside counters, inside growth changes by exactly the accruals made in range, modulo 2^256 |
| `FeeGrowth.GrowthSinceSnapshot` | src/liquidity/uniswap_v3/mod.rs:285-299 | the wrapped difference to the position's snapshot is the in-range accruals since it, modulo 2^256 |
| `EvmTx.RefreshKeepsFloor` | src/evm/nonce.rs:42-49 | a refresh never lowers the nonce floor and never drops a reservation |
| `EvmTx.StepKeeps` | src/liquidity/uniswap_v3/tx.rs:333-386 | every durable write and network call of a send, refresh, confirmation or retry, and every crash, keeps the protocol invariant |
| `EvmTx.ClearedOnlyByOwnReceipt` | src/evm/nonce.rs:190-211 | clearing starts only from a receipt of one of the slot's own candidates |
| `EvmTx.OwnRecordsValidate` | src/liquidity/uniswap_v3/approval_recovery.rs:26-65 | recovery accepts every slot the protocol itself wrote |
| `EvmTx.CompleteSend` | src/liquidity/uniswap_v3/tx.rs:333-386 | an uninterrupted send broadcasts exactly its own transaction and returns to a quiet state one nonce later |
| `EvmTx.CrashLeavesStuck` | src/liquidity/uniswap_v3/tx.rs:357-386 | a crash after sending leaves the slot, floor and reservation a retry requires |
| `EvmTx.CompleteReplacement` | src/liquidity/uniswap_v3/approval_recovery.rs:66-236 | a stuck approval is re-sent with the same nonce and call and both hashes stay recorded |
| `OrderJournal.OldestAreVictims` | src/hyperliquid/journal.rs:324-338 | the surplus of that list is exactly a choice that keeps the youngest |
| `OrderJournal.StepKeeps` | src/hyperliquid/mod.rs:242-320 | every durable write, POST, answer and crash of the exchange protocol keeps its invariant and every settled record |
| `OrderJournal.RecordsStable` | src/hyperliquid/journal.rs:211-264 | over every step of every run a terminal status and a known exchange order ID never change and no record is lost |
| `OrderJournal.MarksExactly` | src/hyperliquid/journal.rs:190-264 | one step keeps that property exactly when it does not accept such an answer |
| `OrderJournal.MislabelledRun` | src/hyperliquid/journal.rs:211-264 | a concrete run in which the exchange's answer breaks it |
| `DefaultStrategy.HedgeWithinInventory` | src/strategy/mod.rs:307-351 | the hedge asked for lies between the inside share of the inventory and the whole of it |
| `DefaultStrategy.ResetsExactly` | src/strategy/mod.rs:325-350 | a layer is recentered exactly when a new bar brings its streak to the confirmation count, which restarts it |
| `DefaultStrategy.CountIsWitnessed` | src/strategy/mod.rs:210-230 | at every point of every run the count is backed by that many new healthy closes, hour by hour, with no unsafe frame since the first |
| `DefaultStrategy.PauseClock` | src/strategy/mod.rs:188-193 | what any event makes of the pause clock: its own time, or exactly for an exposed deferral the clock the state already had |
| `DefaultStrategy.PauseStart` | src/strategy/mod.rs:188-193 | in every run a pause reaches back unbroken to the event that began it or restarted its clock, and shows that event's clock |
| `DefaultStrategy.ResumeExactly` | src/strategy/mod.rs:237-276 | a frame that is not deferred resumes exactly on a full and safe look, with enough healthy hours and the clock run out |
| `DefaultStrategy.EarlyResumeRun` | src/engine/mod.rs:394-418 | such a run of a fresh bot, for every configuration with a cooldown: a deferred first entry, then a deployment before the cooldown is over |
| `EthStrategy.TargetReachesBand` | src/strategy/eth/band.rs:81-91 | the hedge target respects the collateral cap and otherwise moves net exposure exactly to the nearer band edge, or leaves it |
| `StrategyRuns.EvaluateKeepsHalt` | src/strategy/eth/mod.rs:185-435 | every evaluation, of any variant and on any data, keeps a halt and the peak and yields only an exit or a hold when halted |
| `StrategyRuns.DefaultKeepsHalt` | src/strategy/mod.rs:123-151 | the same for the default evaluation with and without continuity |
| `StrategyRuns.StepCools` | src/strategy/eth/band.rs:137-234 | a risk exit with liquidity held rules every later step until its cooldown has passed |
| `StrategyRuns.StepHolds` | src/strategy/eth/band.rs:185-270 | a recentering rules every later step until the minimum holding time has passed |
| `StrategyRuns.JudgeKeepsHistory` | src/engine/entry_rearm.rs:195-200 | an evaluation under a permit borrows the first-entry rules but restores the history |
| `Observations.ChainStep` | src/liquidity/uniswap_v3/observations.rs:342-375 | every stream event keeps the header map a parent-linked run of consecutive numbers, at most 1024 of them, short of the end of the number range |
| `Observations.SaturationExactly` | src/liquidity/uniswap_v3/observations.rs:361-370 | at the last 64-bit block number the link breaks exactly when the replaced tip's hash differs from its parent's |
| `Observations.ConfirmedAvailable` | src/liquidity/uniswap_v3/observations.rs:199-216 | it is given exactly for a live, fresh feed with a long enough chain |
| `Observations.SaveExactly` | src/liquidity/uniswap_v3/observations.rs:186-198 | one save keeps that exactly when its read began in this epoch or it stores nothing |
| `Observations.WrappedRead` | src/liquidity/uniswap_v3/observations.rs:84-90 | a concrete run, 2^64 invalidations during one read, in which a stale read passes for a current one |
| `Observations.SaturatedRun` | src/liquidity/uniswap_v3/observations.rs:361-370 | a concrete run whose chain breaks at the last 64-bit block number |
| `Observations.RefusedExactly` | src/liquidity/uniswap_v3/observations.rs:186-198 | a save is accepted exactly when no invalidation came since its reader began, modulo 2^64 |
| `RequestGate.BackoffLadder` | src/evm/rpc/limit.rs:101-106 | successive limits wait 30, 60, 120, 240 and then 300 seconds |
| `RequestGate.StepKeeps` | src/evm/rpc/limit.rs:90-122 | every interleaved step, cancellation included, keeps the gate's invariant |
| `RequestGate.UnheldLimitExactly` | src/evm/rpc/limit.rs:101-111 | why a limit needs the permit: at any point of any run, one reported without it keeps the run's deadlines in order exactly when no longer wait is pending |
| `RequestGate.OnePermit` | src/evm/rpc/limit.rs:90-100 | at most one caller is past the queue and leaving frees its permit |
| `Paper.LiquidityIsWorthItsValue` | src/math.rs:10-20 | liquidity bought for a value is worth exactly that value at that price |
| `Paper.AmountsAdd` | src/math.rs:3-9 | amounts add up in liquidity |
| `Paper.SwapBooks` | src/engine/paper.rs:87-95 | a swap changes equity by exactly the recorded cost |
| `Paper.FillBooks` | src/engine/paper.rs:80-86 | a fill changes equity by the fill's difference from the mark minus the recorded fee |
| `Paper.RemovedBooks` | src/engine/paper.rs:96-106 | removing layers moves their value to the wallet |
| `Paper.MintAllBooks` | src/engine/paper.rs:183-243 | minting any number of layers conserves the books, also when it fails half-way |
| `Paper.ScaleAllBooks` | src/engine/paper.rs:149-182 | scaling any number of positions conserves the books, also when it fails half-way |
| `Paper.ExitBooks` | src/engine/paper.rs:129-148 | an exit leaves no position, no base and no short, and costs what it records |
| `Paper.MarkBooks` | src/engine/paper.rs:46-79 | a mark changes equity by the revaluation plus a resting order's fill against the mark minus its fee |
| `Paper.MintAllBuilds` | src/engine/paper.rs:183-243 | a completed deployment adds one position per layer, each worth its weighted share over its range, and leaves no loose base |
| `Performance.FeesNonNegative` | src/monitor/performance.rs:222-238 | fees are never negative |
| `Performance.WindowsAddUp` | src/monitor/performance.rs:222-238 | cutting a history at a sample splits its fees |
| `Performance.CapitalAddsUp` | src/monitor/performance.rs:222-238 | and its capital |
| `Performance.EarlierStartAdds` | src/monitor/performance.rs:222-238 | an earlier start adds what the counters gained between the two starts |
| `Maintenance.StepKeeps` | src/engine/migration.rs:185-251 | every file operation of reset and migration, and every crash, keeps the invariant |
| `Maintenance.BlockedWhileClearing` | src/engine/reset.rs:524-565 | while records change or go, a marker blocks the runner; the last marker goes only from a clean directory |
| `Maintenance.InterleavedReset` | src/engine/migration.rs:36-114 | a concrete run in which a plain reset breaks that |
| `FeeGrowth.Unclaimed` | src/liquidity/uniswap_v3/mod.rs:258-310 | the two-step loop computes the per-token fee, with both overflow errors |
| `EvmTx.NonceManager.Refresh` | src/evm/nonce.rs:106-166 | refreshes the counters, keeps the floor, and rebuilds a lost reservation from the slot |
| `EvmTx.NonceManager.Next` | src/evm/nonce.rs:167-173 | hands out a nonce exactly when nothing is pending or reserved and both counters agree at or above the floor; a refusal leaves the refreshed counters |
| `EvmTx.NonceManager.Prepared` | src/evm/nonce.rs:174-189 | records a reservation exactly when no other hash holds one, raising the floor |
| `EvmTx.NonceManager.Confirmed` | src/evm/nonce.rs:190-211 | releases the reservation and then the slot exactly for a receipt of one of the slot's candidates, else changes nothing |
| `EvmTx.Hashes` | src/evm/nonce.rs:12-29 | all candidate hashes in order, refused exactly when two coincide |
| `EvmTx.ValidatedPendingHashes` | src/liquidity/uniswap_v3/approval_recovery.rs:26-65 | accepts a slot exactly when every candidate decodes to its hash and to the same nonce and call |
| `EvmTx.Store.Begin` | src/store.rs:258-275 | takes the slot exactly when it is free |
| `OrderJournal.Journal.ValidateNewIds` | src/hyperliquid/journal.rs:22-38 | accepts a request exactly when its IDs are distinct and unused in ledger and archive, ignoring case |
| `OrderJournal.Journal.Prepare` | src/hyperliquid/journal.rs:39-99 | records all intents or none, with each error |
| `OrderJournal.Journal.Acknowledge` | src/hyperliquid/journal.rs:122-155 | applies all acknowledgements in order or none, with each error |
| `OrderJournal.Journal.MarkNotSubmitted` | src/hyperliquid/journal.rs:190-210 | marks all intents of a pre-dispatch request and clears the hedge pointer, or changes nothing |
| `OrderJournal.Journal.Compact` | src/hyperliquid/journal.rs:314-340 | archives a valid choice of victims in turn, rewrites the ledger only after all succeeded, and leaves it untouched otherwise |
| `OrderJournal.Journal.ArchiveOrders` | src/store.rs:200-254 | stores orders in turn and stops before the first conflict or refused write |
| `OrderJournal.OldestFirst` | src/hyperliquid/journal.rs:324-329 | the terminal orders by age then ID, each once |
| `StrategyState.StrategyObject.QuietLayers` | src/recovery.rs:187-192 | clears every layer's breakout streak and nothing else |
| `StrategyState.StrategyObject.FinishWorkflowRecovery` | src/recovery.rs:193-200 | pauses unless halted and drops the recovery count, its anchor and the streaks |
| `StrategyState.StrategyObject.DeferEntry` | src/engine/mod.rs:394-418 | undoes a deployment's phase, share and clocks, and turns to an exit when inventory or a hedge is open |
| `DefaultStrategy.EvaluateInPlace` | src/strategy/mod.rs:88-355 | the field-by-field evaluation equals its specification, for fresh, stale and incomplete data |
| `DefaultStrategy.RecheckProgress` | src/strategy/progress.rs:85-128 | the count survives a gap only with a recent observation, an unchanged anchor candle and healthy conditions |
| `DefaultStrategy.CountHour` | src/strategy/mod.rs:210-230 | a new close adds a healthy hour, a gap or an unhealthy hour restarts the count |
| `DefaultStrategy.ObserveMarket` | src/strategy/mod.rs:183-236 | recheck, risk pause, hour count and progress report in order |
| `DefaultStrategy.AdvancePhase` | src/strategy/mod.rs:237-294 | initial entry, resume, scale-up or waiting |
| `DefaultStrategy.ScanLayers` | src/strategy/mod.rs:295-354 | the per-position loop: protection, hedge target and breakout streaks |
| `EthStrategy.ScanBar` | src/strategy/eth/band.rs:200-226 | the per-position breakout loop of the ETH strategies |
| `EthStrategy.EvaluateBandInPlace` | src/strategy/eth/band.rs:124-344 | the band evaluation, edited in place, equals its specification |
| `EthStrategy.EvaluatePersistentInPlace` | src/strategy/eth/mod.rs:227-435 | the persistent evaluation, edited in place, equals its specification |
| `EntryRearm.Runner.ArmEntry` | src/engine/entry_rearm.rs:128-165 | arms one permit when paused, flat and settled; a repeat neither stacks nor replaces |
| `EntryRearm.Runner.EvaluateEntry` | src/engine/entry_rearm.rs:168-217 | evaluates with or without the waiver, cancelling the permit when it no longer applies |
| `EntryRearm.Runner.ConsumeEntry` | src/engine/entry_rearm.rs:220-238 | consumes the permit of a waived deployment before it may execute, or stops |
| `Observations.InsertSorted` | src/liquidity/uniswap_v3/observations.rs:371-374 | ordered insertion of a header |
| `Observations.Shared.InsertHeader` | src/liquidity/uniswap_v3/observations.rs:371-374 | insertion followed by popping the oldest beyond the limit |
| `Observations.Shared.OnEvent` | src/liquidity/uniswap_v3/observations.rs:342-447 | the effect of each stream event |
| `Observations.Shared.SaveWords` | src/liquidity/uniswap_v3/observations.rs:245-255 | saves under the reader's epoch, dropping aged entries and a full cache |
| `Observations.Shared.Confirmed` | src/liquidity/uniswap_v3/observations.rs:199-216 | the search for the confirmed header |
| `RequestGate.Gate.ClaimSlot` | src/evm/rpc/limit.rs:90-100 | grants exactly outside a cooldown and books the next slot |
| `RequestGate.Gate.Limit` | src/evm/rpc/limit.rs:101-111 | the deadline and backoff after a limit |
| `RequestGate.Gate.Succeed` | src/evm/rpc/limit.rs:112-122 | clears the cooldown, and the failures after a healthy minute |
| `Paper.PaperLedger.MarkPrices` | src/engine/paper.rs:46-79 | marks in place and settles the resting order |
| `Paper.PaperLedger.Remove` | src/engine/paper.rs:96-106 | removes layers in place |
| `Paper.PaperLedger.ScaleLayers` | src/engine/paper.rs:149-182 | the scaling loop, with each error |
| `Paper.PaperLedger.MintLayers` | src/engine/paper.rs:209-243 | the minting loop, with each error |
| `Paper.PaperLedger.ApplyDecision` | src/engine/paper.rs:110-278 | the whole application in place |
| `Paper.PaperLedger.ApplyFunding` | src/engine/paper.rs:279-291 | the funding loop |
| `Performance.Integrate` | src/monitor/performance.rs:222-238 | the accumulating loop |
| `Performance.FeeHistory.Trim` | src/monitor/performance.rs:178-183 | pops samples the window no longer needs |
| `Performance.FeeHistory.AddSample` | src/monitor/performance.rs:156-183 | repeats, resets or extends a position's samples |
| `Performance.FeeHistory.Observe` | src/monitor/performance.rs:85-204 | the observation loop over positions, with each error |
| `Maintenance.StateDirectory.ArchiveAndClear` | src/engine/reset.rs:524-565 | copy, clear and marker removal in place, stopped after any number of file operations |

## Left out

- `sqrt_at_tick` and every tick/price conversion: range bounds are ordered square roots between the executable limits.
- `wait_receipt`'s polling, `verify_inventory`, gas estimation and identity checks: only the durable steps and their order are modelled.
- HTTP, WebSocket and RPC transport, ABI and JSON shapes, signing: their answers are arbitrary inputs.
- Floating-point rounding, infinities and NaN: finiteness checks are taken as passed; a zero episode peak follows the floating-point limits.
- Indicator and feature formulas: their results are inputs.
- Report, last-reset and log texts: they are written and never read by the modelled code.
- `managed_open_orders`, `import_legacy`'s account check and the user check of each order: one account is assumed.
- The three cancellation and leverage branches of `reconcile` are one step that clears the slot on an observed effect.
- Order intents that answer `err` and statuses of another length at once: the source indexes past the end there; a crash covers it.
- `inventory_hedge_target` in the paper ledger: the target is an input of each application.
- Per-position report decoration and the APR quotient: they only read the integral.
- The symlink, ownership and free-space checks of reset and migration, and edits of the configuration file by others during a migration.
- Power loss that reorders file operations: a crash falls between ordered durable steps.
- Solana runner, backtests, research scripts, volume monitor and display code.
- RequestGate.GrantsSpaced: the spacing is the one in force at the earlier grant; a stricter spacing set meanwhile applies from the next grant on.
- Observations.CachesFollowEpochs: assumes fewer than 2^64 invalidations during one read, and no block at the end of the 64-bit range; without that it fails, as `SaveExactly` and `SaturationExactly` say.
- Performance.ObservedValid: assumes non-empty hashes and revisions, and mint times after zero, as the sources deliver them.
