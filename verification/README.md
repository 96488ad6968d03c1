# Trading bot: verified model

A Dafny model of the parts of the bot that decide, size, confirm and account for trades, with proofs
of what they keep over whole runs. Market caps, PnL and SOL values are `real`; raw token and lamport
amounts are bounded naturals with the program's u64 and u128 widths written out.

## What is modelled

- **Position manager** (`src/autobuy/manager.rs`, `positions.rs`, `exit_engine.rs`). One position is a
  value (`PositionSpec.Pos`) with a step function for every event that touches it; `Positions.Position`
  is the mutable object whose methods are proved equal to it. The whole actor is the transition system
  `ManagerSpec.Next`: positions keyed by (mint, wallet), pending and closed mints, the pool cache, and
  the messages that spawned tasks will still send back. Any of those messages may arrive next, in any
  order, with any broker answer, so a run covers every interleaving, delay, reordering and failure.
  `Manager.PositionManager` is the actor with its maps and objects updated in place; `RunActor` ties
  the object to the runs of the transition system.
  - `RowSpec` is the actor seen from one (mint, wallet). `ManagerProps.RunSimulates` shows that every
    run of the actor is, on each row, a run of that machine; `RowRuns` shows that each row's position
    is a run of `PositionSpec` from its own opening. Results about one position therefore hold in
    every reachable state of the actor (`RowRuns.ReachablePosition`, `ManagerSafety`).
  - `ExitLaws`, `TickLaws` and `ManagerLaws` state the decisions from outside, in numbers and tables of their
    own: what a tick sees and remembers, under which condition each of its orders is queued given that no
    earlier check queued one, how much a sell takes, at which price a position opens.
- **Tape filter** (`ExitFilter`): the two-stage median and band filter, against a rank definition of
  the median that does not mention sorting.
- **Bonding curve and exits** (`Curve`, `CurveSell`, `CurveSale`, `JupiterSell`): the constant-product
  output and its inverse, the clamp, the drain loop, the whole of `sell` with its routes, Jupiter
  chunking and balance-drop confirmation.
- **Demo broker** (`MockBroker`), **dedup** (`Dedup`), **feed accounting** (`LogFeed`), **fresh watchlist**
  (`Watchlist`, interleaved atomic sections), **YAML mode rewriter** (`YamlMode`, as a lens).

## Where the program does not do what is promised

Each of these is kept as the code has it, with the exact condition and, where it is a failure of some
inputs only, a concrete input or run.

- `sl_confirm_ticks as u8` keeps the low eight bits. The configured count is what a stop needs exactly
  up to 255 (`PositionProps.ConfirmFitsIff`); at multiples of 256 the stop fires on every tick out of
  grace that no earlier exit took (`HealthyTickStops`; `TickExamples.ProfitableTickStops` is one at +100%).
- Trailing activation assigns the floor. On the state a tick starts its exit checks from, the stored and
  the effective floor fall exactly under the guards `FloorProps.FloorDropsIff` and
  `EffectiveFloorFallsIff` name; `TickExamples` has a tick for each. The default configuration excludes
  the effective one (`Defaults.DefaultsMeetConditions`, `FloorProps.FloorNeverDecreases`).
- `ClearPendingMint` is sent before the buys have answered. At most one broker buy per wallet and mint is
  guaranteed, over all runs, exactly when a mint is signalled at most once
  (`ManagerSafety.OneBuyIffOneSignal`; `Race` is the run with two).
- Closed mints are never signalled again (`ManagerSafety.NeverReenter`), but they can be entered again: the
  order handler and the buy answer do not look at `closed_mints`. After any run that leaves a mint closed
  and without a position, some continuation opens one exactly when a buy for it is running or an order
  for it by a known wallet is in flight (`ClosedMints.ReopensIffOwed`; `ClosedMintReopens` is a run from
  start-up with a single signal).
- Aborting a spiked fill does not close the mint (`ManagerSafety.SpikeAbortKeepsMintOpen`;
  `AbortedMintIsBoughtAgain` is a run in which it is bought a second time).
- The dedup caches are documented as LRU but forget in arrival order: they are LRU caches exactly when they
  hold one signature (`Dedup.LruIffSizeOne`, `OldestIsForgotten`).
- Confirmed receipts can be missing from the result. Over the whole of `sell`, for all answers, the money
  confirmed on chain less the money reported is nothing, except in two cases that can be read off the
  answers, and then it is exactly a named sum (`CurveSale.MoneyOfSale`; with positive receipts nothing is
  missing exactly outside those cases, `NothingMissingIff`): a Jupiter sale fails as one chunk and then
  breaks after at least one of the four (`JupiterSell.ReceiptsLostIff`, `OneQuarterLost`), or a first leg
  is confirmed and the drain after it fails (`CurveSale.FirstReceiptLostIff`,
  `ClampedExitLosesFirstReceipt`). A drain by itself loses something exactly when a pass after the first
  fails, the first fails in such a Jupiter sale, or the final close fails after something was confirmed
  (`CurveSell.DrainLosesIff`, `CurveSale.DrainLosesQuarter`). The manager then keeps its holdings
  (`CurveSale.BooksAfterSale`).
- A successful full exit leaves tokens exactly when its first leg went to Jupiter and was clamped or left a
  balance, or the balance is not zero after the drain (`CurveSale.LeavesTokensIff`; `ClampedExitByJupiter`
  leaves 902 of 1000, `WholeExitLeavesResidue` leaves 100 because the close is skipped); the manager ends
  the position all the same.
- The watchlist cap is respected by every interleaving exactly when callers come one at a time, or there is
  no room at all (`Watchlist.CapKeptIff`).
- The mode rewriter is not idempotent on text in which a kept line ends in a carriage return of its own,
  and only there (`YamlMode.TextRewriteTwiceIff`, `CarriageReturnsAreEaten`).

## Model

| member | source | states |
|---|---|---|
| ManagerSafety.NoPositionStuck | src/autobuy/manager.rs:1124-1288 | in every reachable actor state a closing position has a 100% sell in flight, a pending partial has a partial in flight, and outstanding sells are at most the two flags plus failures since opening plus what was in flight at opening |
| ManagerSafety.OneBuyPerWallet | src/autobuy/manager.rs:1011-1093 | at most one `InitiateBuy` per mint means at most one broker buy per (mint, wallet), and every sell in flight was queued by the position it will find |
| ManagerSafety.NeverReenter | src/autobuy/manager.rs:872-877 | once a mint has had a position, every later buy signal for it changes nothing, after any run |
| ManagerSafety.TradedStaysCovered | src/autobuy/manager.rs:677-682 | every mint ever traded still has a position or is in `closed_mints` |
| ManagerSafety.NotesAreTheLedger | src/autobuy/manager.rs:1226-1313 | the PnL values reported over a run are exactly, per confirmed full close, all confirmed legs of that position's life plus the last receipt minus its spend, and per aborted fill receipt minus spend; nothing else |
| ManagerSafety.PositionsAreLives | src/autobuy/manager.rs:1720-1821 | every reachable position is the run of its own opening and events; returned SOL is the sum of its legs; tokens are accounted for within half a raw unit per partial |
| ManagerSafety.PendingHasOneMark | src/autobuy/manager.rs:918-1008 | in every reachable state a mint is pending exactly while the single message that clears it is in flight, so at most one fan-out per mint is under way |
| ManagerSafety.LateOrderAfterClose | src/autobuy/manager.rs:1011-1046 | an order that arrives after the close starts a buy exactly when the pool has been updated since, the actor runs and the wallet is known |
| ClosedMints.QuietStaysEmpty | src/autobuy/manager.rs:677-682 | a closed mint with no row and nothing in flight that can buy it never has a position again |
| ClosedMints.ReopensIffOwed | src/autobuy/manager.rs:1011-1093 | after any run that leaves a mint closed and empty, some continuation opens a position on it if and only if a buy for it is running or an order for it by a known wallet is in flight |
| ClosedMints.ClosedMintReopens | src/autobuy/manager.rs:1579-1821 | a six-event run from start-up, with one signal, after which a closed mint without a pool has a position |
| ManagerSafety.SpikeAbortKeepsMintOpen | src/autobuy/manager.rs:1700-1720 | a spike abort reports one PnL value and leaves every mint exactly as enterable as before |
| ManagerSafety.AbortedMintIsBoughtAgain | src/autobuy/manager.rs:1700-1720 | a run from start-up in which a fill is aborted, the mint is signalled again and a second broker buy starts |
| ManagerSafety.SecondSignalBuysTwice | src/autobuy/manager.rs:948-968 | a concrete five-event run with two broker buys for one wallet and mint in flight |
| ManagerSafety.CallsWithinSignals | src/autobuy/manager.rs:1011-1093 | broker buys for a wallet never outnumber the signals for the mint |
| ManagerSafety.RaceCallsTwice | src/autobuy/manager.rs:948-968 | that run calls the broker twice for one wallet |
| ManagerSafety.OneBuyIffOneSignal | src/autobuy/manager.rs:872-968 | at most n signals per mint guarantee at most one broker buy over all runs if and only if n is at most one |
| ManagerSafety.SellsMatchFlags | src/autobuy/manager.rs:2129-2134 | with one signal and no failed sell, the sells in flight for an open position are exactly its flags: at most one full close and one partial |
| ManagerSafety.SixFillsPerPosition | src/autobuy/manager.rs:1279-1283 | with one signal, at most six partial sells of a position ever succeed |
| ManagerSafety.CallsAreCounted | src/autobuy/manager.rs:855-968 | broker buys are the starts of the row machine, and a mint's requests per wallet are at most its signals |
| ManagerProps.StepSimulates | src/autobuy/manager.rs:711-1527 | each actor step is, on every row, one step of the row machine |
| ManagerProps.RunSimulates | src/autobuy/manager.rs:711-1527 | every actor run is a row run on every row; positions and running buys belong to known wallets |
| ManagerProps.TickTraffic | src/autobuy/manager.rs:2618-2622 | a tick queues for a row exactly the order its own position asks for, in whatever order rows are visited |
| ManagerProps.FanOutTraffic | src/autobuy/manager.rs:938-968 | a fan-out queues one order per listed wallet and no sell |
| Manager.PositionManager.InitiateBuy | src/autobuy/manager.rs:855-968 | the in-place handler does what the transition system says, refusals included |
| Manager.PositionManager.ExecuteBuy | src/autobuy/manager.rs:1011-1092 | starts the broker buy exactly when running, wallet known, no row, pool cached |
| Manager.PositionManager.BuyCompleted | src/autobuy/manager.rs:1579-1836 | opens the row, aborts on a spike, or closes an unavailable mint, as the transition system says; the price is `ManagerLaws.EntryPrice`, the abort `AbortIff` |
| Manager.PositionManager.ExecuteSell | src/autobuy/manager.rs:1124-1313 | full success ends the row and finalizes the mint; everything else puts the changed row back; the tokens left are `ManagerLaws.PartialSellLeaves` |
| Manager.PositionManager.Tick | src/autobuy/manager.rs:2115-2622 | every row is ticked once and its order goes into flight, in any visiting order |
| Manager.PositionManager.AbandonPosition | src/autobuy/manager.rs:976-1004 | removes the matching rows and finalizes the mint |
| Manager.PositionManager.UpdatePool | src/autobuy/manager.rs:715-719 | caches the pool and moves every row of the mint |
| Manager.PositionManager.ApplyExitMcapRefresh | src/autobuy/manager.rs:732-771 | switches every row of the mint to the Jupiter market cap |
| Manager.RunActor | src/autobuy/manager.rs:711-1527 | the object's state after any message sequence is that of a run of the transition system |
| ManagerLaws.EntryPrice | src/autobuy/manager.rs:1727-1821 | the row a buy opens: entry price and high are the pool's mcap without a fill, the fill without an honest score, and otherwise the score as far as it lies between the configured share of the fill and the fill, or the nearer of the two; spend, time, tokens and entry figures of the signal |
| ManagerLaws.OpenedRow | src/autobuy/positions.rs:123-191 | entry price and session high of any opening are its baseline, the tape starts there, nothing is triggered or in flight |
| ManagerLaws.AbortIff | src/autobuy/manager.rs:1839-1879 | a fill reports one value and opens nothing exactly when it is over the upper or under the lower multiple of the score, both clamped, and the emergency sell goes through; otherwise the row opens |
| ManagerLaws.PartialSellLeaves | src/autobuy/manager.rs:1147-1283 | a confirmed sell of pct percent leaves holdings * (100 - pct) / 100 within half a raw unit, adds the receipt, ends the wait, and changes nothing else in the actor |
| ManagerLaws.HeldIsLeft | src/autobuy/manager.rs:1147-1283 | in every reachable state a row holds the product of the shares its partial sells kept, within half a raw unit per partial |
| ManagerLaws.FullSellEnds | src/autobuy/manager.rs:1171-1313 | a full sell that succeeds removes the row, reports receipts less spend and closes the mint with its last row; one that fails reopens the row for ticks, tokens and money as before |
| ManagerLaws.BuyStartsIff | src/autobuy/manager.rs:1011-1092 | an order starts one broker buy exactly when the actor runs, the wallet is known, the row is empty and the pool cached |
| ManagerLaws.SignalTakenIff | src/autobuy/manager.rs:855-968 | a signal is taken exactly when running, allowed, no row of the mint, not pending, not closed; then one order per buyer, in order, and one end of the mark |
| ManagerLaws.AbandonedRows | src/autobuy/manager.rs:976-1004 | exactly the matching rows go, and the mint is closed and its pool dropped exactly when no row is left |
| RowSpec.NeverStuck | src/autobuy/manager.rs:1183-1201 | flags in memory imply orders in flight, over all row runs |
| RowSpec.FullAnswerReleases | src/autobuy/manager.rs:1171-1226 | any answer to a full close ends the position or clears both flags |
| RowSpec.OutstandingBound | src/autobuy/manager.rs:1187-1201 | outstanding sells are bounded by flags, failures and carried orders |
| RowRuns.RowIsLife | src/autobuy/manager.rs:1143-1288 | a row's position is the run of its own life, and its orders come from that life or were carried over |
| RowRuns.BuysAnswerRequests | src/autobuy/manager.rs:1011-1093 | broker buys never exceed requests, openings never exceed broker buys, and a first life carries nothing over |
| RowRuns.NoFailuresOneOfEach | src/autobuy/manager.rs:2129-2134 | with one request and no failures the outstanding sells are exactly the flags: at most one full close and one partial |
| RowRuns.ClosedAtMostOnce | src/autobuy/manager.rs:1289-1313 | confirmed closes plus an open position never exceed the openings |
| RowRuns.AtMostSixFills | src/autobuy/manager.rs:1279-1283 | successful partials of a once-signalled position are at most six over its life |
| RowRuns.PctsStayValid | src/autobuy/manager.rs:2531-2617 | percentages between 0 and 100 in the configuration reach every order and every partial sell |
| RowRuns.ReachablePosition | src/autobuy/manager.rs:2115-2622 | streaks, flush low, trigger prefix, floors, legs and holdings all hold in every reachable row |
| PositionProps.TickOrder | src/autobuy/manager.rs:2127-2617 | a tick queues at most one order, never during a close, never a second partial, never a fired trigger, and marks exactly the flag of what it queued |
| PositionProps.CrashAlwaysCloses | src/autobuy/manager.rs:2416-2617 | a crash queues a 100% sell on the same tick whatever else is due, and a partial is queued only on a tick without crash or confirmed stop |
| PositionProps.StreaksAreHistory | src/autobuy/manager.rs:2441-2453 | both confirm counters are the capped length of the latest unbroken run of bad evaluated ticks, failed closes included |
| PositionProps.StopNeedsConfirmation | src/autobuy/manager.rs:2416-2469 | a plain stop fires exactly when its check runs and the configured number of consecutive ticks were below the floor out of grace |
| PositionProps.ConfirmFitsIff | src/autobuy/manager.rs:2419-2454 | the u8 comparison means the configured count if and only if that count is at most 255 |
| PositionProps.HealthyTickStops | src/autobuy/manager.rs:2419-2469 | at multiples of 256 a tick stops exactly when it is out of grace and no earlier exit took it, whatever the floor |
| TickExamples.ProfitableTickStops | src/autobuy/manager.rs:2419-2469 | with 256 confirm ticks, a fresh position at +100% is stopped on its first tick |
| PositionProps.DecayNeedsConfirmation | src/autobuy/manager.rs:2299-2386 | a momentum-decay exit fires exactly when the block runs and enough consecutive ticks were bad and not recovering |
| PositionProps.BufferIsWindow | src/autobuy/positions.rs:208-216 | the tick buffer is the newest valid raw ticks ever pushed, in order |
| FlushProps.FlushLowIsMinimum | src/autobuy/manager.rs:2324-2341 | the flush low is the minimum filtered mcap over every decay-evaluated tick since the flush opened |
| FloorProps.FloorNeverDecreases | src/autobuy/manager.rs:2230-2236 | the effective stop floor never falls between any two moments of a life, with ordered floors |
| FloorProps.TickFloor | src/autobuy/manager.rs:2483-2529 | the floor a tick checks against lies between the effective floors before and after it |
| FloorProps.StopFloorCoversStaircase | src/autobuy/exit_engine.rs:937-949 | with the staircase on, the floor a stop check uses is at least the staircase of the session peak |
| FloorProps.FloorDropsIff | src/autobuy/manager.rs:2299-2529 | without assumptions, on the state before the exit checks: the stored floor falls exactly when trailing is off, nothing is due, the activation profit is reached and the trailing floor is lower; the effective one exactly when the staircase is lower too |
| FloorProps.EffectiveFloorFallsIff | src/autobuy/manager.rs:2230-2529 | the same against the effective floor before the tick |
| TickExamples.EffectiveFloorCanFall | src/autobuy/manager.rs:2519-2529 | a configuration, a fresh position and a tick that lowers the effective floor from -10 |
| TickExamples.StoredFieldCanDip | src/autobuy/manager.rs:2519-2529 | a tick with default neutral floors on which the stored field falls from 40 and the effective floor does not |
| Defaults.DefaultsMeetConditions | src/autobuy/exit_engine.rs:514-638 | the default profiles meet the floor, threshold and percentage conditions |
| PartialProps.EachTpOnce | src/autobuy/manager.rs:2560-2616 | each take-profit is queued at most once in a life, and its flag says whether |
| PartialProps.AtMostSixPartials | src/autobuy/manager.rs:2471-2616 | at most six partial sells are ever queued, the ceiling lock at most once |
| PartialProps.PrefixIff | src/autobuy/manager.rs:2560-2616 | nondecreasing thresholds are exactly what keeps triggered take-profits a prefix |
| PartialProps.TakeProfitsFormPrefix | src/autobuy/exit_engine.rs:978-998 | over any run, across profile and phase changes, the triggered take-profits are TP1..TPk |
| PartialProps.HoldingsConserved | src/autobuy/manager.rs:1279-1283 | initial holdings are current holdings plus the percentages sold of what was held each time, within half a raw unit per partial |
| PartialProps.PartialLeaves | src/autobuy/manager.rs:1147-1283 | one confirmed partial leaves holdings * (100 - pct) / 100 within half a raw unit |
| PartialProps.HoldingsAreShares | src/autobuy/manager.rs:1147-1283 | over any run holdings are the initial ones times all the shares kept, within half a raw unit per partial |
| Positions.Position.Tick | src/autobuy/manager.rs:2127-2617 | the in-place tick is the specified step: same branches, same order, same order queued; when each order is queued is in `ExitLaws` |
| Positions.Position.Exits | src/autobuy/manager.rs:2299-2617 | the exit checks in their fixed priority |
| Positions.Position.DecayExit | src/autobuy/manager.rs:2299-2386 | flush tracking, recovery and streak updates, and when the exit fires |
| Positions.Position.ProfitChecks | src/autobuy/manager.rs:2471-2617 | ceiling, trailing, upgrades and take-profits as in the specified stage; their conditions are `ExitLaws.CeilingIff`, `TrailingExitIff`, `ProtectionIff` and `TakeProfitIff` |
| Positions.Position.Observe | src/autobuy/manager.rs:2171-2192 | tick push, filter, high, samples, previous raw and peak |
| Positions.Position.Refresh | src/autobuy/manager.rs:2203-2228 | lite score, phase and profile refresh |
| Positions.Position.PushExitMcapTick | src/autobuy/positions.rs:208-216 | pushes a valid tick and drops the oldest |
| Positions.Position.NoteMcapSample | src/autobuy/positions.rs:252-268 | the two-sample clock of the velocity |
| Positions.Position.Apply | src/autobuy/manager.rs:1183-1283 | failures, partial fills, pool, Jupiter and live updates |
| Positions.Position.constructor | src/autobuy/manager.rs:1727-1821 | the opened position: baseline, tape, floors and scores |
| ExitLaws.TrailingExitIff | src/autobuy/manager.rs:2505-2517 | on a tick with nothing due before, a trailing exit is queued if and only if trailing is on and the drop from the session high, in percent, is at least the tolerance: 40 from score 15, 38 for a runner, 24 from score 11, 22 strong, 18 neutral or weak above 50%, else 14; the plain value without v4 |
| ExitLaws.NoTrailingExitAtHigh | src/autobuy/manager.rs:2505-2517 | a tick at a positive session high never trails out |
| ExitLaws.LowerPriceStillCloses | src/autobuy/manager.rs:2505-2517 | a lower filtered mcap and profit never cancel a trailing exit; the tick still closes in full |
| ExitLaws.TimeKillIff | src/autobuy/manager.rs:2388-2413 | given no decay exit, a time kill is queued if and only if profit is under the minimum, the window has passed and neither exemption holds |
| ExitLaws.KillWindow | src/autobuy/manager.rs:2048-2113 | the window by counting signs of strength and weakness, each class within its own range |
| ExitLaws.KillWindowV4 | src/autobuy/manager.rs:2238-2252 | v4 only lengthens the window: the largest of the base, the A+ minimum and the tier-A deferral that apply |
| ExitLaws.CrashIff | src/autobuy/exit_engine.rs:383-410 | given no earlier exit, a crash is queued, urgently, if and only if one profit is at or under the crash level, or out of grace the raw mcap fell by the crash drop with raw profit negative |
| ExitLaws.StopIff | src/autobuy/manager.rs:2441-2454 | the streak counts exactly the out-of-grace ticks with one profit at or under the floor, and the stop is queued exactly when it reaches the low eight bits of the configured count |
| ExitLaws.CeilingIff | src/autobuy/manager.rs:2471-2503 | given no exit, the ceiling lock is queued if and only if reached, not yet queued and no partial in flight; its part is clamped to 1..99, it switches to Jupiter and turns trailing on |
| ExitLaws.TakeProfitIff | src/autobuy/manager.rs:2531-2616 | given no earlier order, take-profit n is queued if and only if no partial is in flight and n is the lowest one reached and not fired; it sells the share of profile, phase and score and marks exactly its own flag |
| ExitLaws.ProtectionIff | src/autobuy/manager.rs:2519-2529 | trailing turns on exactly at the activation profit of profile and phase, with the trailing floor; below it the smart stop raises a lower floor; exits leave both alone |
| TickLaws.TickSees | src/autobuy/manager.rs:2170-2196 | raw value, filter input, both profits, age, samples, high and peak of a tick |
| TickLaws.ProfitMeans | src/autobuy/positions.rs:222-228 | a market cap is the entry's times one plus the profit |
| TickLaws.VelocityMeans | src/autobuy/positions.rs:271-282 | velocity times entry times gap is a hundred times the change between the samples |
| TickLaws.SessionHigh | src/autobuy/manager.rs:2175-2190 | over any run the session high is the largest filtered mcap seen by a tick of the open position, or the first value; the peak profit likewise |
| TickLaws.Staircase | src/autobuy/exit_engine.rs:937-949 | the floor the checks start with is the stored one raised to 15, 40, 90 or 180 at peaks of 50, 100, 200, 400 |
| TickLaws.DecayIff | src/autobuy/manager.rs:2299-2386 | when the decay block runs, which ticks are bad, how they are counted, when the exit is queued, and when a flush opens, deepens and ends |
| TickLaws.RefreshMeans | src/autobuy/manager.rs:2203-2228 | score, phase and profile are refreshed exactly out of grace, after the interval and without a live tape; the profile only becomes runner and never goes back |
| TickLaws.LiveScoreMeans | src/autobuy/exit_engine.rs:712-754 | the live score lies between -14 and 11, with both ends characterised |
| TickLaws.RecoveryMeans | src/autobuy/exit_engine.rs:841-893 | the recovery score never falls when metrics or price improve and lies between -10 and 9, with both ends characterised |
| TickLaws.PhaseMeans | src/autobuy/exit_engine.rs:951-975 | phases are monotone in the score and antitone in decay, and each is entered exactly under its condition |
| TickLaws.LiteMeans | src/autobuy/exit_engine.rs:795-835 | the metrics used without a live tape, by sign of the velocity |
| TickLaws.FailureMeans | src/autobuy/manager.rs:1183-1201 | a failed sell changes the two flags only, and keeps a close queued exactly when it was a partial without manual sell |
| TickLaws.DataMeans | src/autobuy/manager.rs:715-842 | pool, Jupiter and live updates change only what they are about |
| ExitFilter.MedianByRank | src/autobuy/exit_engine.rs:446-454 | the sorted median is the unique valid sample with the upper-median rank |
| ExitFilter.FilteredIsSample | src/autobuy/exit_engine.rs:470-492 | with a band around 1 and any valid tick the result is one of the valid samples |
| ExitFilter.InnerMedianDecides | src/autobuy/exit_engine.rs:470-492 | with a band around 1 and a usable sample the second median exists and is the answer; which sample that is, is `BandDecides` |
| ExitFilter.FilteredByRank | src/autobuy/exit_engine.rs:446-492 | by counting alone: the rank median of the usable samples within [m low, m high] around the rank median m, m when none is there, the entry mcap when no sample is usable |
| ExitFilter.BandDecides | src/autobuy/exit_engine.rs:456-492 | with low at most 1 and high at least 1 the answer is exactly the rank median of the usable samples in the band around m |
| ExitFilter.OutlierValueIsIrrelevant | src/autobuy/exit_engine.rs:456-492 | replacing an out-of-band sample by another one on the same side of the band does not change the answer |
| ExitFilter.RobustToMinority | src/autobuy/exit_engine.rs:446-492 | if more than half of the ticks lie in [lo, hi] and the band covers that spread, so does the result |
| ExitFilter.HonestMajority | src/autobuy/exit_engine.rs:446-492 | the same for any chosen set of honest positions, whatever the other ticks are |
| ExitFilter.HalfIsNotEnough | src/autobuy/exit_engine.rs:446-492 | a strict majority is needed |
| Amounts.RoundError | src/helper.rs:23-30 | in range, conversion rounds by at most half a raw unit |
| Amounts.AmountRoundTrip | src/helper.rs:23-50 | raw to float and back is the identity |
| Curve.ExactInverse | src/autobuy/pump_brocker.rs:2169-2216 | output at most s if and only if amount at most the inverse of s, for all u64 inputs and positive reserves |
| Curve.ProductKept | src/autobuy/pump_brocker.rs:2170-2185 | the output keeps the constant product to the lamport: the remaining product is at most the old one and would exceed it with one lamport more |
| Curve.InverseIffLive | src/autobuy/pump_brocker.rs:2169-2216 | positive reserves are exactly what the inverse law needs |
| Curve.NoSaturation | src/autobuy/pump_brocker.rs:2178-2184 | no saturating u128 operator and no cast back ever saturates |
| Curve.ClampSafe | src/autobuy/pump_brocker.rs:1554-1580 | what is submitted projects to at most 90% of the real reserve, never exceeds the request, and is the largest such amount |
| Curve.SplitBounds | src/autobuy/pump_brocker.rs:2169-2185 | j consecutive legs earn at least the single sale and at most j - 1 lamports more |
| Curve.SplitBoundTight | src/autobuy/pump_brocker.rs:2169-2185 | the upper bound is attained |
| CurveSell.ClosesIffWhole | src/autobuy/pump_brocker.rs:1552-1642 | the account is closed with the sale exactly when a full exit sells the whole request, the drain is to follow exactly when it sells less and stays on the curve, a clamped full exit by Jupiter gets neither, and Jupiter is chosen exactly when there is something to sell and the curve graduated or is priced for it |
| CurveSell.DrainAfterClampedExit | src/autobuy/pump_brocker.rs:995-1225 | the loop submits and returns what the passes say, and closes the account exactly when no pass failed and the balance does not read positive |
| CurveSell.PassMeans | src/autobuy/pump_brocker.rs:1012-1190 | how one pass ends: stop, fail, its receipt and on, or Jupiter; after a leg seen to land it goes on unless the whole balance was sold and 1 to 1000 units are read |
| CurveSell.EveryLegWithinCap | src/autobuy/pump_brocker.rs:1065-1084 | every submitted leg is positive, within the balance, on an ungraduated curve, within the 90% cap and maximal, whatever the chain answers |
| CurveSell.DrainLosesIff | src/autobuy/pump_brocker.rs:1012-1225 | a drain with confirmed proceeds behind it returns nothing if and only if a pass after the first fails, the first fails in a Jupiter sale that had confirmed a chunk, or the final close fails after something was confirmed |
| CurveSell.DrainMoney | src/autobuy/pump_brocker.rs:1012-1225 | what a drain took and does not report is nothing, or everything when it fails |
| CurveSale.Sell | src/autobuy/pump_brocker.rs:1550-1793 | the first leg, its routes and the drain, in the program's order; what succeeds on the curve was sent and seen to land |
| CurveSale.ConfirmedOrFailed | src/autobuy/pump_brocker.rs:1749-1785 | on the curve: failed unless the transaction was sent and the account seen gone if its close was part of it, or a balance read dropped by the amount less the slack; otherwise its receipt, plus what the drain returns |
| CurveSale.UnconfirmedKeepsPosition | src/autobuy/manager.rs:1171-1204 | an unconfirmed sale leaves tokens and money of the position as they were and reopens it |
| CurveSale.FirstReceiptLostIff | src/autobuy/pump_brocker.rs:1760-1785 | a sale with a confirmed first leg fails exactly when the drain was to follow and a pass or the close fails |
| CurveSale.MoneyOfSale | src/autobuy/pump_brocker.rs:1550-1793 | for all answers, curve legs, Jupiter chunks and refunds confirmed on chain less what is reported is zero, or in the two losing cases exactly the named money |
| CurveSale.NothingMissingIff | src/autobuy/pump_brocker.rs:1550-1793 | with positive receipts nothing is missing if and only if the answers are of neither losing kind |
| CurveSale.LeavesTokensIff | src/autobuy/pump_brocker.rs:1596-1785 | a successful full exit leaves tokens exactly when it went to Jupiter and was clamped or left a balance, or did not drain to zero |
| CurveSale.JupiterLeavesAtMost | src/autobuy/pump_brocker.rs:2392-2473 | an unclamped exit by Jupiter leaves at most the balance before less the request plus 100 raw units |
| CurveSale.WholeExitLeavesResidue | src/autobuy/pump_brocker.rs:791-815 | an unclamped full exit that leaves 100 units, skips the close and ends the position |
| CurveSale.DrainLosesQuarter | src/autobuy/pump_brocker.rs:1031-1060 | a drain whose first pass sells a quarter through Jupiter and returns nothing |
| CurveSale.BooksAfterSale | src/autobuy/manager.rs:1171-1291 | a failed sale leaves holdings and returned SOL as they were; a full exit that succeeds ends the position whatever is left |
| CurveSale.ClampedExitByJupiter | src/autobuy/pump_brocker.rs:1613-1642 | a full exit of 1000 units that sells 98 and succeeds |
| CurveSale.ClampedExitLosesFirstReceipt | src/autobuy/pump_brocker.rs:1769-1780 | a full exit whose confirmed first receipt is in no result |
| CurveSell.QuietDrain | src/autobuy/pump_brocker.rs:1012-1190 | left alone the drain never fails, the real reserve pays every leg exactly, and it ends sold out, out of passes, or at a curve that buys nothing |
| CurveSell.QuietDrainEarns | src/autobuy/pump_brocker.rs:1012-1190 | a quiet drain in j legs earns the paper price of one sale, up to j - 1 lamports more |
| JupiterSell.JupiterChunkAmounts | src/autobuy/pump_brocker.rs:836-847 | the chunk loop computes the specified sizes |
| JupiterSell.ChunksPartition | src/autobuy/pump_brocker.rs:836-847 | chunks are positive and sum to the total; it is split exactly when every part gets 50000 units, into the requested number of parts, equal but for the last |
| JupiterSell.PollConfirmsSell | src/autobuy/pump_brocker.rs:2405-2473 | the first balance read that dropped enough confirms; none means no read did |
| JupiterSell.PollIff | src/autobuy/pump_brocker.rs:2392-2473 | a sell is confirmed exactly when some read is lower than before by the amount less 0.01% of it, between 1 and 100 units |
| JupiterSell.SellRound | src/autobuy/pump_brocker.rs:874-909 | one round of chunks, stopping at the first failure, close only with the last |
| JupiterSell.RoundIff | src/autobuy/pump_brocker.rs:870-925 | a round goes through exactly when every chunk was sent and seen to drop from the balance less the chunks before; a broken one counts the chunks before the first that was not |
| JupiterSell.SellPostGraduation | src/autobuy/pump_brocker.rs:850-943 | whole first, then four parts from the same balance |
| JupiterSell.SaleIff | src/autobuy/pump_brocker.rs:850-943 | a sale succeeds exactly when the whole amount goes through as one chunk or, failing that, every one of up to four does, from the same balance; it reports the receipts and the close refund of that round only |
| JupiterSell.ResidueIsOneSlack | src/autobuy/pump_brocker.rs:886-925 | after any number of confirmed chunks the last balance is at most pre minus sold plus one chunk's slack: slack does not accumulate, and no assumption on the balance is needed |
| JupiterSell.SaleResidue | src/autobuy/pump_brocker.rs:850-943 | a successful sale leaves at most pre - sold + 100 raw units |
| JupiterSell.RoundTotal | src/autobuy/pump_brocker.rs:789-834 | a round's total is the sum of its receipts, plus the refund exactly when the close was asked for, the account read empty after the last chunk and the close went through |
| JupiterSell.ReceiptsLostIff | src/autobuy/pump_brocker.rs:871-943 | for all answers, confirmed chunks are missing from the result exactly when the first round breaks and the second breaks after at least one, and exactly their money is missing |
| JupiterSell.OneQuarterLost | src/autobuy/pump_brocker.rs:871-943 | a sale in which one SOL is confirmed and reported nowhere |
| MockBroker.DemoBroker.Buy | src/autobuy/broker_mock.rs:38-68 | debits and records when the balance covers it, refuses and changes nothing otherwise |
| MockBroker.DemoBroker.Sell | src/autobuy/broker_mock.rs:70-104 | receipt times entry mcap is quantity times current mcap, credited; the entry loses the quantity or goes; an unknown mint is refused |
| MockBroker.DemoBroker.ForgetPosition | src/autobuy/broker_mock.rs:110-112 | forgets the entry |
| MockBroker.SaleKeepsWorth | src/autobuy/broker_mock.rs:79-101 | one sale conserves balance plus tokens at the price, except for what is dropped with an exhausted entry |
| MockBroker.SalesConserve | src/autobuy/broker_mock.rs:79-101 | at a constant market cap any number of sales conserves balance plus tokens while the entry stays |
| MockBroker.HoldingsAgree | src/autobuy/broker_mock.rs:44-101 | broker tokens and manager holdings differ by at most (k + 1) / 2 raw units after k partials |
| MockBroker.WithinThreeAndAHalfUnits | src/autobuy/broker_mock.rs:44-101 | hence by at most 3.5 units in every reachable position of a once-signalled mint |
| MockBroker.ActorAndBrokerAgree | src/autobuy/broker_mock.rs:44-104 | the same in every reachable state of the actor |
| Dedup.SelfDedup.CheckAndRemember | src/feed/metrics.rs:250-264 | true exactly when the signature is among the last max(capacity, 1) accepted ones |
| Dedup.SignatureDedup.Observe | src/feed/metrics.rs:211-224 | true exactly when another feed owns a remembered signature; queue and owner map hold the same claims |
| Dedup.AcceptanceIff | src/feed/metrics.rs:250-264 | a signature is accepted exactly when it is not among the last max(capacity, 1) accepted ones |
| Dedup.AcceptedAreSpaced | src/feed/metrics.rs:250-264 | two acceptances of one signature are more than a window apart |
| Dedup.WindowUnique | src/feed/metrics.rs:235-264 | the queue never holds a signature twice |
| Dedup.ReobservingDoesNotRefresh | src/feed/metrics.rs:250-253 | seeing a remembered signature changes nothing |
| Dedup.RecentlySeenIsForgotten | src/feed/metrics.rs:232-264 | first-in first-out, not least-recently-used, on one history |
| Dedup.OldestIsForgotten | src/feed/metrics.rs:232-264 | for every capacity above one: fill the cache, touch the oldest entry, observe one more, and the entry just seen is forgotten |
| Dedup.LruIffSizeOne | src/feed/metrics.rs:232-264 | the cache is a least-recently-used cache, in contents and in order, if and only if it holds one signature |
| Dedup.ClaimsAreAccepted | src/feed/metrics.rs:211-224 | the cross-feed cache follows the same window |
| LogFeed.Subscription.Receive | src/feed/logs_feed.rs:89-183 | one message through drop, dedup, prefilter and parsing, counter by counter |
| LogFeed.Subscription.Parse | src/feed/logs_feed.rs:150-182 | the parsing loop, up to the loss of the receiver |
| LogFeed.EveryMessageCountedOnce | src/feed/metrics.rs:147-161 | at message boundaries, messages are failed, duplicate, without data or processed, each once, so the saturating subtractions of the snapshot are exact there |
| LogFeed.SnapshotWhileRunning | src/feed/metrics.rs:147-161 | counters loaded one by one while the feed runs, the first possibly inside a message, give at most the messages processed before it, and one more if it was inside one |
| LogFeed.Subscription.Listen | src/feed/logs_feed.rs:64-183 | the counters after any stream are those of the run |
| LogFeed.LinesBalance | src/feed/logs_feed.rs:128-182 | data lines are events plus parse errors plus what a lost receiver left unread |
| LogFeed.ParsedCounts | src/feed/logs_feed.rs:150-182 | events are the data lines that parse, up to the one that finds the receiver gone; errors are those that do not |
| LogFeed.CountersAreSums | src/feed/logs_feed.rs:112-182 | over any stream the line, overlap, event and error counters are sums over the messages neither failed nor repeated |
| Watchlist.FreshWatchlistManager.TryAdmit | src/pipeline/fresh_watchlist.rs:73-82 | the locked admission section: a duplicate exactly when active, full exactly when not active and the counter is at the cap, inserted otherwise |
| Watchlist.FreshWatchlistManager.NoteRunning | src/pipeline/fresh_watchlist.rs:83 | the increment after it |
| Watchlist.FreshWatchlistManager.RemoveActive | src/pipeline/fresh_watchlist.rs:173-176 | the locked removal |
| Watchlist.FreshWatchlistManager.NoteDone | src/pipeline/fresh_watchlist.rs:177 | the decrement after it |
| Watchlist.CounterTracksActive | src/pipeline/fresh_watchlist.rs:73-177 | in every interleaving the counter is active minus inserting plus releasing, never negative, no mint has two live tasks, and it exceeds the cap by at most c - 1 |
| Watchlist.SerialCallersRespectCap | src/pipeline/fresh_watchlist.rs:73-83 | one caller at a time never exceeds the cap |
| Watchlist.BurstExceedsCap | src/pipeline/fresh_watchlist.rs:73-83 | the excess of c - 1 is reached for every cap of at least one and every c |
| Watchlist.CapKeptIff | src/pipeline/fresh_watchlist.rs:73-177 | every interleaving respects the cap if and only if callers come one at a time or the cap is zero |
| YamlMode.RewriteYamlMode | src/main.rs:1873-1927 | the loop with its three flags produces the referenced edit of the text |
| YamlMode.FindMeaning | src/main.rs:1879-1927 | the edited place is the first `mode:` or top-level line after a header, the end of the file, or a new block |
| YamlMode.OtherLinesKept | src/main.rs:1867-1927 | every other line keeps its text and order in all cases |
| YamlMode.ReadAfterRewrite | src/main.rs:1907-1916 | the first mode line of an execution block then reads as the written mode |
| YamlMode.RewriteTwice | src/main.rs:1873-1927 | the last rewrite wins |
| YamlMode.RewriteIdempotent | src/main.rs:1873-1927 | rewriting twice with one mode is rewriting once |
| YamlMode.RewriteWhatWasRead | src/main.rs:1907-1916 | writing back what was read changes nothing exactly when the line had one space after the colon |
| YamlMode.TextRewriteTwiceIff | src/main.rs:1879-1927 | on text the last rewrite wins if and only if no kept line ends in its own carriage return |
| YamlMode.CarriageReturnsAreEaten | src/main.rs:1879-1927 | a text on which two rewrites differ from one |
| YamlMode.TextReadAfterRewrite | src/main.rs:1879-1927 | reading the rewritten text gives the mode back |

## Left out

- ManagerSafety.OneBuyPerWallet: needs at most one signal per mint, which `OneBuyIffOneSignal` shows is exactly what it takes.
- FloorProps.FloorNeverDecreases: needs every trailing floor at or above the initial and smart-stop floors; `EffectiveFloorFallsIff` covers the rest.
- PositionProps.StopNeedsConfirmation: needs a confirm count of at most 255, see `ConfirmFitsIff`.
- Curve.SplitBounds: needs the token reserve after all legs to fit the account's u64 field.
- MockBroker.HoldingsAgree: speaks of the entry bought for the position; a second buy of the same mint overwrites it.
- YamlMode.ReadAfterRewrite: a mode with leading white space reads back without it.
- RPC, Jupiter HTTP, websocket, database and files: their answers are inputs, chosen freely.
- The strategy gate, the curve quarantine, entry-profile resolution and the values of a live snapshot: arbitrary inputs. A snapshot for a mint is one event per row.
- Polling for the exit market cap: its answer is an event that may come at any time; an answer that does not switch to Jupiter changes nothing and is not an event.
- Delays and send order of spawned tasks: any message in flight may arrive next, which allows more orders than the program's.
- Reason texts, labels, tier strings (an enumeration here), wire events and printing.
- `pending_wallet_buys`: written and never read.
- NaN, infinities and rounding of market caps and PnL.
- Estimated receipts and priority fees, wallet balances shown on the dashboard.
- LogFeed.EveryMessageCountedOnce: message boundaries only; `SnapshotWhileRunning` covers loads in between.
- Wrap-around of the feed counters after 2^64 messages.
- Learning log, dev ranking, blacklists, scoring and the launchpad: no part in the properties above.
