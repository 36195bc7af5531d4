# Verified models of the trading platform's stateful cores

This project models, in Dafny, the parts of the platform whose correctness rests on
state kept across calls, and proves what they promise over every input, run or
reachable state.

**Candles and history.** `CivilDate`, `Timeframes` and `TradingDay` model the calendar
arithmetic on integer day numbers, as section 21.4.1 of ECMA-262 defines it.
`MarketCandles` is the incremental aggregator and the batch definition it refines.
`MarketHistory` is the contract between server and browser: watermark, validator, merge.
`TickGate`, `HistoryStore` and `Cutover` follow a raw tick through the server's gate and
store into the browser's chart and prove that snapshot plus replay equals uninterrupted
aggregation; `HistoryBars` what the store publishes and restarts from, `Windows` that
whatever the store sends, the browser accepts, and `HistoryPages` what paging brings.
`ChartHistory` is the chart's controller: hydrations, their buffer and failures, conflicts
and older pages. `ChartRuns`, `ChartFaults` and `ChartFailures` follow it through whole
sessions in which ticks are lost or repeated and requests fail, and prove when the chart
stays in step with the stream, what exactly goes wrong otherwise, and when it recovers;
`ChartAnswers` says which answers count and what listeners are told.
`MarketSession` and `HistoryGaps` classify bars and holes, `HistoricalBars` gates provider
pages, `Sorting` lists maps in key order.

**Purchase to account.** `SpecSets`, `Commerce`, `CommerceRuns` and `CommerceLaws` model the
tables, each transaction as one atomic step, and runs of purchases, payment
preparations, webhooks (duplicated, reordered, wrong, forged) and standalone activations.
`CommerceOrigins` traces every answer and every row back to what caused it.

**Realtime client.** `RealtimeClient` and `RealtimeRuns` model the reconnecting WebSocket
client as a class whose handlers are inputs, and runs in which frames are lost, repeated
and reordered, connect throws, and replaced sockets live on; `RealtimeChannels` says what it
asks for, hands on and shows.

**Payouts.** `Payouts` and `PayoutRuns` model the two providers, the payout rows and ledger,
and runs in which calls interleave at every await, die at any of them, and processes
forget what their providers remembered. `PayoutOrigins` traces amounts, statuses and entries
to their events, `PayoutProviders` says what providers remember and what is turned away.

**Simulator and analytics.** `Simulator` and `Decimals` model the seeded walk and its quotes,
`SimulatorLaws` its draws and the freshness of quotes; `Analytics` and `PerformanceKpis` the
regroupings of a trading record, `RecordLaws` what they say of the fills.

Classes and loops stand where the program mutates state; each method is proved against a
function of the old state, and the laws are lemmas about those functions.

Conventions. Instants are integers, in seconds or milliseconds as the name says. Prices
are integers in a symbol's smallest unit where they are only compared and passed on, and
reals in points in the simulator. Clocks, generated identifiers, tokens, timers, the
New York offset and what a transaction reads but never writes are parameters.

What the proofs found, beyond what they confirm:

- Joining history to live ticks by the finalized watermark alone is exact if and only if
  the next tick is not late (`Cutover.CutoverFromFinalized`). The tick gate rules late
  ticks out, so the promise holds behind it and not without it.
- The chart keeps no note of a missed tick. After a refused or overflowing hydration, or a
  gap on a socket that stays open, it draws the next tick onto a series that lacks some, and
  closes candles that the stream does not have (`ChartFaults.SkipSpoils`,
  `ChartFailures.FailingSession`). Its closed candles are the stream's exactly while every
  one that it closes sums up its bucket (`ChartFaults.GenuineExactly`). The first window to
  reach such a candle drops the chart and asks again; if that request fails and another bad
  candle is closed, every window that reaches this one fails and none repairs it
  (`ChartFaults.NeverRepaired`, `ChartFailures.StuckSession`).
- The server comments that a stale or closed tick must never open or extend a candle. It
  broadcasts such ticks, and the chart draws them (`ChartFailures.UnobservedShows`).
- While only observed ticks are heard, the conflict branch of an older page is never taken
  (`ChartFaults.PageNeverConflicts`).
- Older pages are asked for from the oldest candle on screen, so a chart that was away for
  longer than a window reaches back has a hole that no paging fills (`HistoryPages.HoleOpens`,
  `HistoryPages.HoleStays`).
- A badly signed delivery consumes its event id: a later genuine delivery with that id is a
  duplicate and changes nothing (`CommerceLaws.ForgedUsesUp`). Nothing else but a delivery
  that commits uses an id up (`CommerceLaws.KeyStaysNew`).
- A lone symbol spec set is taken even if its identifier does not parse, because nothing
  compares it (`SpecSets.FoldIsLatest`).
- A rejection reads the status without a lock and writes it without a guard, so it can
  take the status of a request that was approved, submitted or failed in between
  (`PayoutRuns.RejectionOvertakes`). Statuses move only forward exactly in the runs where
  that does not happen (`PayoutRuns.RunOnward`). A paid or reversed request is out of its
  reach: its cycle is closed, the check constraint on cycles refuses to reopen it, and the
  whole rejection rolls back (`PayoutRuns.PaidIsSafe`), so the ledger follows the statuses
  in every run.
- The submission guard reads the request before any answer is recorded, so two tries
  naming different providers can both reach their provider (`PayoutRuns.BothAsked`); this
  happens exactly when two such tries pass the guard and live to make their call
  (`PayoutRuns.AskedExactly`, `PayoutRuns.OneProviderAsked`). The database keeps the first
  answer.
- A token promise that rejects, or a socket constructor that throws, ends a call of
  connect without arming a timer. If nothing else is under way the client is stuck until
  its caller acts, and that is the only way to get stuck (`RealtimeRuns.StuckExactly`).
- Connecting while a timer is armed or a token is on its way can lead to two live sockets
  (`RealtimeRuns.SecondSocketAhead`).
- A gap on a channel that was unsubscribed asks the server for the channel again, until it is
  unsubscribed once more or the socket changes (`RealtimeChannels.StrayHappens`,
  `RealtimeChannels.AskedExactly`).
- A mid on the price grid is recomputed one point too high from its own quote when the
  spread is an odd number of points (`Simulator.QuoteExactly`).
- The comment on the weekend test speaks of every day of a hole, the code probes one instant
  a day from the start of the hole. The two agree exactly when the probes say no or the
  hole also ends on a weekend (`HistoryGaps.ProbesRight`), as holes of daily series do.

## Model

| member | source | states |
|---|---|---|
| `CivilDate.CivilRoundTrip` | packages/contracts/src/market-candles.ts:113-126 | the day number and the civil date of a day determine each other, both ways, for every day (sections 21.4.1.3 to 21.4.1.13 of ECMA-262) |
| `CivilDate.MonthInterval` | packages/contracts/src/market-candles.ts:119-138 | months are intervals of 28 to 31 days, as long as the calendar says, and two days share a month start exactly when one lies in the other's interval; December rolls into January |
| `CivilDate.MonthLengths` | packages/contracts/src/market-candles.ts:119-138 | each month has the days the calendar gives it, and the months fill the year |
| `CivilDate.LeapYearFormula` | packages/contracts/src/market-candles.ts:113-126 | counting leap years one by one gives the closed form of DayFromYear (section 21.4.1.6 of ECMA-262) in every year, before 1970 too |
| `Timeframes.Tiling` | packages/contracts/src/market-candles.ts:108-145 | for every timeframe and instant the bucket contains the instant, two instants share a start exactly when one is in the other's bucket, and both ends of a bucket are aligned: buckets tile time |
| `Timeframes.AlignedTiling` | packages/contracts/src/market-candles.ts:132-145 | from an aligned start, an instant is in the bucket exactly when it maps to that start, and any later aligned start is at or past the bucket's end |
| `Timeframes.CalendarBuckets` | packages/contracts/src/market-candles.ts:108-138 | a day bucket is the UTC day, a week starts on Monday, a month starts on its first day and lasts 28 to 31 days |
| `Timeframes.FixedBucket` | packages/contracts/src/market-candles.ts:127-128 | every fixed interval, and the day, is the epoch-aligned floor |
| `Timeframes.Nesting` | packages/contracts/src/market-candles.ts:67-138 | bucketing finely and then coarsely equals bucketing coarsely at every instant exactly for the dividing pairs (any fixed interval and the day into week and month included), and for no others |
| `MarketCandles.CandleAggregator.ObserveTick` | packages/contracts/src/market-candles.ts:248-277 | one observation takes the open candle to the one the step function names and reports what it closed |
| `MarketCandles.CandleAggregator.Seed` | packages/contracts/src/market-candles.ts:245-247 | the open candle becomes the seed |
| `MarketCandles.CandleAggregator.Reset` | packages/contracts/src/market-candles.ts:242-244 | no candle is open |
| `MarketCandles.OpensExactly` | packages/contracts/src/market-candles.ts:248-277 | a bucket opens exactly with the first observation or one of a later bucket, which hands out the open candle; a late one leaves it |
| `MarketCandles.RunIsBatch` | packages/contracts/src/market-candles.ts:236-279 | aggregating any stream, ordered or not, yields its batch reading: per bucket the first, highest, lowest and last price of the observations that reach the running maximum, one candle per such bucket, in ascending order |
| `MarketCandles.BatchUnique` | packages/contracts/src/market-candles.ts:236-279 | there is only one batch reading of a stream |
| `MarketCandles.RunShape` | packages/contracts/src/market-candles.ts:236-279 | every candle of a run is consistent, starts at an observed bucket, and starts ascend strictly |
| `MarketHistory.CandleFault` | packages/contracts/src/market-history.ts:335-367 | no fault is reported exactly for an aligned candle with decimal prices in open-high-low-close order |
| `MarketHistory.ValidateHistoryWindow` | packages/contracts/src/market-history.ts:382-450 | a window is accepted exactly when it is bounded, well shaped, strictly ascending, with a later current candle and a boundary and cursor that match its newest and oldest candle; a reported fault is really present |
| `MarketHistory.NeighboursSuffice` | packages/contracts/src/market-history.ts:382-450 | checking each candle, its predecessor, the newest and the oldest is enough: a window is valid exactly if these checks pass |
| `MarketHistory.ReportedExactly` | packages/contracts/src/market-history.ts:355-366 | a price relation is reported exactly if it is broken and none before it is |
| `MarketHistory.BoundaryExactly` | packages/contracts/src/market-history.ts:316-325 | the watermark is the open candle's where it comes with one and the finalized candles' otherwise |
| `MarketHistory.MergeFinalizedCandles` | packages/contracts/src/market-history.ts:469-486 | the candle loop returns the merge, or the start of the first candle that clashes |
| `MarketHistory.MergeIsUnion` | packages/contracts/src/market-history.ts:452-486 | merging series with unique starts succeeds exactly when they agree on every shared bucket, and gives the strictly ascending union |
| `MarketHistory.ConflictExactly` | packages/contracts/src/market-history.ts:469-486 | the start a conflict reports is that of the first incoming candle that contradicts the series; there is none exactly when the merge succeeds |
| `MarketHistory.MergeIdempotent` | packages/contracts/src/market-history.ts:452-486 | merging a series with itself, or again with what it took in, changes nothing |
| `MarketHistory.MergeCommutative` | packages/contracts/src/market-history.ts:452-486 | the order of the two sides does not matter, conflicts included |
| `MarketHistory.MergeAssociative` | packages/contracts/src/market-history.ts:452-486 | the grouping of three merges does not matter, conflicts included |
| `TickGate.MarketTickGate.Evaluate` | services/realtime/src/tick-gate.ts:12-24 | the decision and the remembered mark for one tick, per symbol |
| `TickGate.GateOrders` | services/realtime/src/tick-gate.ts:6-25 | from any mixed raw stream, the ticks let through for a symbol ascend strictly in sequence and never go back in time |
| `TickGate.PassedAreOpen` | services/realtime/src/tick-gate.ts:12-24 | every tick let through for a symbol is an open tick of it |
| `TickGate.GateTransparent` | services/realtime/src/tick-gate.ts:6-25 | the gate lets all open ticks of a symbol through exactly when they are in order already |
| `HistoryStore.TimeframeState.ApplyToTimeframe` | services/realtime/src/market-history-store.ts:179-261 | one accepted tick takes the store to the state the step function names and publishes the bar it closed and the open one: late ticks are only counted, a closed candle keeps its first and last sequence, retention drops the oldest |
| `HistoryStore.TimeframeState.ReadWindow` | services/realtime/src/market-history-store.ts:304-356 | the window read at the live edge or before a cursor |
| `HistoryStore.StoreHolds` | services/realtime/src/market-history-store.ts:167-261 | after any stream the store holds the newest candles of the uninterrupted aggregation, its open candle, and the sequence of the last tick that was not late |
| `HistoryStore.TimeframeState.SeedCurrentBar` | services/realtime/src/market-history-store.ts:263-268 | the open bar and its sequences become the stored ones |
| `HistoryStore.SeededStoreHolds` | services/realtime/src/market-history-store.ts:263-268 | a store seeded with the open bar of a prefix of the stream and fed the rest holds the open candle of the whole stream, the newest of the candles closed since, and the sequence of the last tick that was not late |
| `HistoryStore.SeededFinals` | services/realtime/src/market-history-store.ts:179-268 | and publishes as final exactly the candles closed since the prefix, once and in order |
| `HistoryStore.FinalsAreTheSeries` | services/realtime/src/market-history-store.ts:179-261 | every candle of the stream is published as final exactly once, in order, however few the store keeps |
| `HistoryBars.UpdatesExactly` | services/realtime/src/market-history-store.ts:232-261 | after any stream the next tick, unless late, publishes last the open candle that accounts for it, through its own sequence and from that of the tick that opened the bucket, and before it the candle it closed, if any, with the sequences of that candle; a late tick publishes nothing |
| `HistoryBars.LastPublished` | services/realtime/src/market-history-store.ts:249-261 | the last bar published over any stream is the open candle of the whole stream through the last tick that was not late |
| `HistoryBars.RestartHolds` | services/realtime/src/durable-market-history-store.ts:99-118 | a store seeded with the last bar published over a prefix and fed the rest ends with the open candle and last sequence of the whole stream, and publishes as final exactly the candles closed since |
| `HistoryBars.RestartPublishesOn` | services/realtime/src/durable-market-history-store.ts:99-118 | and, whatever the two retentions, it publishes exactly what the store that was not interrupted would have |
| `HistoryBars.StoredExactly` | services/realtime/src/market-history-store.ts:179-261 | every stored candle carries the first and last sequence of the ticks of its bucket that were not late |
| `Cutover.ChartSeries.ApplyTick` | apps/web/app/(trade)/trade/chart-history.ts:403-423 | a live tick extends the chart's series by one aggregation step |
| `Cutover.ChartSeries.Hydrate` | apps/web/app/(trade)/trade/chart-history.ts:592-644 | hydration conflicts exactly when the merge does, and otherwise leaves the merged window, its open candle, and the replay of the buffered ticks past the watermark |
| `Cutover.ChartSeries.Prepend` | apps/web/app/(trade)/trade/chart-history.ts:520-537 | older candles are merged in, or conflict exactly when the merge does |
| `Cutover.CutoverExact` | packages/contracts/src/market-history.ts:305-325 | split any sequenced stream anywhere, read the store's window, seed a fresh aggregator and replay a buffer that reaches back far enough: the result equals uninterrupted aggregation |
| `Cutover.CutoverFromFinalized` | packages/contracts/src/market-history.ts:305-325 | with only the finalized watermark the same holds if and only if the tick after the watermark falls in a later bucket than the newest window candle |
| `Cutover.LateTickHappens` | packages/contracts/src/market-history.ts:305-325 | three ticks for which it is not exact |
| `Cutover.GatedCutoverExact` | packages/contracts/src/market-history.ts:305-325 | behind the tick gate both cutovers are exact, for every raw stream, split, page size and retention |
| `Windows.SentIsAccepted` | services/realtime/src/market-history-store.ts:304-356 | every window the store can send, at the live edge or before any cursor, is accepted by the browser's validator |
| `Windows.RehydrateExact` | apps/web/app/(trade)/trade/chart-history.ts:582-644 | reconnecting to the same store merges without conflict and ends with candles of the uninterrupted series only, in order, none missing from the window on, and its open candle |
| `HistoryPages.PageSplits` | services/realtime/src/market-history-store.ts:304-356 | a page is the newest of the candles before its cursor, says whether any is left, and its cursor leaves exactly those for the next |
| `HistoryPages.PageCarries` | services/realtime/src/market-history-store.ts:330-354 | a page is finalized through the newest candle of its pool; the open candle comes with a page at the live edge and with no other |
| `HistoryPages.PagesBringAll` | services/realtime/src/market-history-store.ts:304-356 | following the cursors while there is more brings every stored candle before the first cursor, each once and in order, whatever the page size |
| `ChartHistory.ChartController.Start` | apps/web/app/(trade)/trade/chart-history.ts:694-715 | a start after a stop begins with nothing, any other only asks for history again |
| `ChartHistory.ChartController.Stop` | apps/web/app/(trade)/trade/chart-history.ts:716-723 | nothing is on screen or under way |
| `ChartHistory.ChartController.OnSocketOpen` | apps/web/app/(trade)/trade/chart-history.ts:666-671 | a new socket asks for history again |
| `ChartHistory.ChartController.OnTick` | apps/web/app/(trade)/trade/chart-history.ts:380-400 | a tick of the symbol is drawn when nothing is under way, buffered when a hydration is, and fails the hydration when the buffer is full |
| `ChartHistory.ChartController.ApplyTick` | apps/web/app/(trade)/trade/chart-history.ts:403-423 | a tick extends the series if live ticks continue the history, and not otherwise |
| `ChartHistory.ChartController.OnResult` | apps/web/app/(trade)/trade/chart-history.ts:558-648 | a page answer goes to the page, an answer to the request under way is adopted, fails or conflicts, and any other changes nothing |
| `ChartHistory.ChartController.OnWindow` | apps/web/app/(trade)/trade/chart-history.ts:566-648 | an invalid window fails, another source clears the chart, a conflict clears it and asks again the first time and fails the second, and otherwise the window is adopted and the buffer replayed past the watermark |
| `ChartHistory.ChartController.MaybeRequestOlder` | apps/web/app/(trade)/trade/chart-history.ts:439-465 | one older page is asked for, from the oldest candle, when there is one and nothing is under way |
| `ChartHistory.ChartController.OnOlderPage` | apps/web/app/(trade)/trade/chart-history.ts:500-556 | a page of an earlier generation or another source is dropped, an invalid one ends paging, a conflict is treated as a window's, and otherwise its candles are merged in |
| `ChartHistory.ChartController.OnError` | apps/web/app/(trade)/trade/chart-history.ts:650-664 | an error for the page drops the page, for the hydration fails it, and any other changes nothing |
| `ChartRuns.ChartStaysInStep` | apps/web/app/(trade)/trade/chart-history.ts:349-664 | through any session in which every tick drawn is the next one the chart has not taken in, the last one again or a late one, whatever is lost, fails or lands: no window conflicts, the chart shows only candles of the stream, in order, the open candle is that of the ticks it accounts for, and none is missing from its last window on |
| `ChartRuns.HydrationCatchesUp` | apps/web/app/(trade)/trade/chart-history.ts:349-400 | a window that lands when the buffer holds every tick sent since the request leaves the chart accounting for the whole stream so far |
| `ChartRuns.CaughtUpShowsAll` | apps/web/app/(trade)/trade/chart-history.ts:582-644 | and it shows every candle the stream has closed from the window's oldest on |
| `ChartRuns.BufferHolds` | apps/web/app/(trade)/trade/chart-history.ts:387-397 | while every tick is heard the buffer holds all of them up to its bound, and the next one drops them with the request |
| `HistoryPages.FirstWindowPages` | apps/web/app/(trade)/trade/chart-history.ts:592-644 | the first window that lands leaves a chart that has every kept candle from its oldest on, pages from there, and knows whether there is more |
| `HistoryPages.PagingCompletes` | apps/web/app/(trade)/trade/chart-history.ts:439-556 | paging from there brings the chart every candle the store keeps, in at most as many rounds as there are candles left and one, and then stops asking |
| `HistoryPages.HoleOpens` | apps/web/app/(trade)/trade/chart-history.ts:592-644 | a window that does not reach back to what is on screen leaves a hole |
| `HistoryPages.HoleStays` | apps/web/app/(trade)/trade/chart-history.ts:439-556 | no number of older pages ever fills it: paging starts from the oldest candle |
| `ChartAnswers.SessionTells` | apps/web/app/(trade)/trade/chart-history.ts:349-723 | in every session the chart says loading exactly while a hydration is under way, ready only with candles, empty only without, and rests when stopped |
| `ChartAnswers.FailuresTold` | apps/web/app/(trade)/trade/chart-history.ts:380-437 | a failure names its reason: an invalid window or a full buffer |
| `ChartAnswers.DrawnExactly` | apps/web/app/(trade)/trade/chart-history.ts:403-423 | a drawn tick changes the series, and the status of a chart that said it was empty when it closes a candle, and nothing else |
| `ChartAnswers.ResultExactly` | apps/web/app/(trade)/trade/chart-history.ts:558-664 | an answer to the page under way goes to it, one to the hydration under way to that, and any other changes nothing |
| `ChartAnswers.ErrorExactly` | apps/web/app/(trade)/trade/chart-history.ts:650-664 | an error drops the page it answers, or fails the hydration it answers, and else changes nothing |
| `ChartAnswers.InvalidPageEnds` | apps/web/app/(trade)/trade/chart-history.ts:500-520 | an invalid page ends paging and leaves what is on screen |
| `ChartAnswers.OtherSourceDiscards` | apps/web/app/(trade)/trade/chart-history.ts:582-601 | a window of another source is adopted as on an empty chart and cannot conflict |
| `ChartAnswers.OtherPageDropped` | apps/web/app/(trade)/trade/chart-history.ts:500-507 | a page of another source or an earlier generation brings nothing |
| `ChartAnswers.DetachedDrawsNothing` | apps/web/app/(trade)/trade/chart-history.ts:403-423 | where live ticks do not continue the history neither buffered nor later ones are drawn |
| `ChartAnswers.AsksExactly` | apps/web/app/(trade)/trade/chart-history.ts:439-465 | a page is asked for exactly when the viewport is near the edge, the chart is up with nothing under way and there is more, and from the cursor |
| `ChartAnswers.StopForgets` | apps/web/app/(trade)/trade/chart-history.ts:694-723 | a start after a stop begins as the first one did, whatever was before |
| `ChartFaults.SkipSpoils` | apps/web/app/(trade)/trade/chart-history.ts:387-423 | a chart in step that misses ticks and then draws one of a later bucket closes a candle the stream does not have, unless the missed ticks of its bucket stayed within its range and ended at its close |
| `ChartFaults.SkipThenConflict` | apps/web/app/(trade)/trade/chart-history.ts:592-606 | and the next window that reaches that candle conflicts and drops the whole chart |
| `ChartFaults.GenuineExactly` | apps/web/app/(trade)/trade/chart-history.ts:380-648 | in every session all closed candles on the chart are the stream's at every moment if and only if every candle closed by drawing sums up its bucket |
| `ChartFaults.ClosedFit` | apps/web/app/(trade)/trade/chart-history.ts:403-423 | where only observed ticks of an ordered stream are heard this comes down to open, close and range |
| `ChartFaults.AcceptedIsInOrder` | services/realtime/src/tick-gate.ts:12-24 | what the gate accepts is such an ordered stream |
| `ChartFaults.SessionPlausible` | apps/web/app/(trade)/trade/chart-history.ts:380-648 | in every session that hears only observed ticks all four prices of every candle on the chart are prices of its bucket, candles are in order, and paging starts from the oldest |
| `ChartFaults.ConflictsExactly` | apps/web/app/(trade)/trade/chart-history.ts:592-606 | in every such session a window conflicts exactly when it reaches a candle on the chart that the stream does not have |
| `ChartFaults.PageNeverConflicts` | apps/web/app/(trade)/trade/chart-history.ts:500-537 | in every such session an older page never conflicts and goes in front of what is on screen, candles the stream does not have included |
| `ChartFaults.LandingHealsExactly` | apps/web/app/(trade)/trade/chart-history.ts:608-648 | a window with a clean replay puts the chart in step if and only if every closed candle on it is the stream's |
| `ChartFaults.NeverRepaired` | apps/web/app/(trade)/trade/chart-history.ts:592-600 | once a second conflict lies ahead, a candle the stream does not have stays for the rest of the session and every window that reaches it fails |
| `ChartFailures.UnobservedShows` | apps/web/app/(trade)/trade/chart-history.ts:380-423 | a tick that was broadcast without being observed is drawn, and the candle it falls into is the stream's exactly when it moved nothing |
| `ChartFailures.FailingSession` | apps/web/app/(trade)/trade/chart-history.ts:380-428 | two sessions that go wrong, over a refused hydration and over a gap on an open socket |
| `ChartFailures.StuckSession` | apps/web/app/(trade)/trade/chart-history.ts:425-428 | and how they come to the second conflict |
| `MarketSession.ClosureIsTheWeekend` | packages/contracts/src/market-session.ts:79-86 | the weekday rule is the 48 hours of each New York week from Friday 17:00 |
| `MarketSession.ClosureInUtc` | packages/contracts/src/market-session.ts:50-86 | in UTC it is the 48 hours from Friday 22:00 while New York is five hours behind and from Friday 21:00 while it is four |
| `MarketSession.SpansOnlyClosedMarket` | packages/contracts/src/market-history-gaps.ts:73-79 | the hourly probe answers yes exactly when the interval is not empty and each second of it is closed, for any alignment and length |
| `MarketSession.ClassifyBarSession` | packages/contracts/src/market-session.ts:110-117 | a bar is out of session exactly when each second of it is closed, for fixed timeframes always, and for weeks and months because New York trades within any week |
| `MarketSession.LongBarTrades` | packages/contracts/src/market-session.ts:89-117 | no aligned week or month lies within a closure |
| `HistoryGaps.SpansOnlyWeekendDays` | packages/contracts/src/market-history-gaps.ts:94-101 | the daily probe answers yes exactly when each probed day of a non-empty hole is on a weekend |
| `HistoryGaps.WeekendExactly` | packages/contracts/src/market-history-gaps.ts:81-101 | every second of a hole is on a weekend exactly when every daily probe and the last second are, wherever the hole starts |
| `HistoryGaps.ProbesRight` | packages/contracts/src/market-history-gaps.ts:81-101 | so the probes alone are right exactly when they say no or the last second is a weekend's, and always for a hole that starts at midnight |
| `HistoryGaps.ProbesMissMonday` | packages/contracts/src/market-history-gaps.ts:94-101 | a hole from Saturday noon to Monday morning that the probes take for a weekend |
| `HistoryGaps.ClassifyOne` | packages/contracts/src/market-history-gaps.ts:154-164 | the kind of a hole: expected by the calendar, else outside the provider's coverage, else repairable or not |
| `HistoryGaps.KindExactly` | packages/contracts/src/market-history-gaps.ts:52-183 | the calendar explains a daily hole that is all weekend and an intraday one that lies within a closure, second by second, and no weekly or monthly one; any other is beyond the provider's coverage, or repairable exactly when a provider can |
| `HistoryGaps.ClassifyGaps` | packages/contracts/src/market-history-gaps.ts:122-152 | the holes between neighbours in order, the four counts, and unexpected as the sum of the other three |
| `HistoryGaps.GapPartition` | packages/contracts/src/market-history-gaps.ts:122-152 | for a strictly ascending aligned series the holes are exactly the maximal uncovered intervals, in order and apart, each a whole number of missing buckets, and bucket durations plus hole lengths are the whole span |
| `HistoryGaps.KindsPartition` | packages/contracts/src/market-history-gaps.ts:136-150 | the four counts add up to the number of holes |
| `HistoryGaps.RepairRangeCovers` | packages/contracts/src/market-history-gaps.ts:173-183 | a repair range exists exactly when an instant before now lies in a later bucket than the last durable bar, and it holds exactly those within the span |
| `HistoricalBars.NormalizeProviderBars` | packages/adapters/src/historical-market-data-provider.ts:181-218 | the loop returns the normalized bars and the refusals, and every input bar is accepted, refused or an identical repeat |
| `HistoricalBars.NoReasonMeansAcceptable` | packages/adapters/src/historical-market-data-provider.ts:220-259 | the chain of checks finds no fault exactly with an aligned safe start within the bounds, positive prices that high and low enclose, and a volume of known meaning |
| `HistoricalBars.ReasonExactly` | packages/adapters/src/historical-market-data-provider.ts:220-259 | the reason reported is the first of ten that applies |
| `HistoricalBars.EarlierIsFirst` | packages/adapters/src/historical-market-data-provider.ts:195-214 | the bar kept for a bucket is the first worth keeping |
| `HistoricalBars.OutcomeExactly` | packages/adapters/src/historical-market-data-provider.ts:189-214 | a bar is accepted exactly if it is worth keeping and the first such of its bucket, dropped exactly if it repeats the prices of that, and refused otherwise |
| `HistoricalBars.OutputIsCanonical` | packages/adapters/src/historical-market-data-provider.ts:181-259 | the output is strictly ascending and holds exactly the acceptable bars that came first for their start |
| `HistoricalBars.NormalizeAgain` | packages/adapters/src/historical-market-data-provider.ts:181-259 | normalizing the output changes nothing and refuses nothing |
| `HistoricalBars.EveryBarAccounted` | packages/adapters/src/historical-market-data-provider.ts:181-218 | inputs are as many as accepted, refused and repeated bars together |
| `HistoricalBars.OutputPassesValidator` | packages/adapters/src/historical-market-data-provider.ts:220-259 | every output bar passes the history validator's candle checks |
| `TradingDay.NextResetAt` | packages/application/src/trading-day.ts:36-41 | the next reset is the end of the day bucket the instant falls in, at most a day ahead, and that bucket is the day the trading-day name gives |
| `TradingDay.MillisecondsUntilReset` | packages/application/src/trading-day.ts:55-57 | the wait is in (0, 86400000] and ends on a midnight |
| `TradingDay.TradingDayIsBucket` | packages/application/src/trading-day.ts:44-46 | two instants share a trading day exactly when they share a day bucket |
| `SpecSets.CompareVersions` | packages/database/src/activation.ts:37-45 | the sign of the result is the numeric order of the versions, zero only for equal ones |
| `SpecSets.LoadLatest` | packages/database/src/activation.ts:47-66 | the loop returns the left fold over the candidates |
| `SpecSets.FoldIsLatest` | packages/database/src/activation.ts:47-66 | choosing succeeds on a lone candidate or when all identifiers parse, and yields the first of the numerically latest |
| `SpecSets.FirstDifferenceDecides` | packages/database/src/activation.ts:37-45 | a version is later exactly when it is greater in the first part in which the two differ |
| `Commerce.Database.RecordPaymentEvent` | packages/database/src/payment-events.ts:24-42 | the insert succeeds exactly for a new provider and event id, and otherwise changes nothing |
| `Commerce.Database.ProcessPaymentWebhookEvent` | packages/application/src/commerce.ts:552-684 | one delivery takes the tables and the answer to those of the transaction, with a rollback when activation throws |
| `Commerce.Database.WebhookBody` | packages/application/src/commerce.ts:556-683 | the body up to commit, every refusal recorded as processed |
| `Commerce.Database.ConfirmPayment` | packages/application/src/commerce.ts:631-682 | a pending order is paid with its receipt and attempt, then activated |
| `Commerce.Database.PreparePurchaseOrderForPayment` | packages/application/src/commerce.ts:428-471 | a failed payment becomes payable again; anything else is left as it is, with its reason |
| `Commerce.Database.CreatePurchaseOrder` | packages/application/src/commerce.ts:259-343 | a new order only for a consented available product, and the existing one for a repeated idempotency key |
| `Commerce.Database.RecordPaymentAttempt` | packages/application/src/commerce.ts:480-505 | the attempt of an order is replaced |
| `Commerce.Database.ActivateEvaluationAccountInTransaction` | packages/database/src/activation.ts:118-229 | an existing account is returned; otherwise account, transition, opening balance, order status and notice are written together, or it throws |
| `Commerce.Database.ActivateEvaluationAccount` | packages/database/src/activation.ts:89-110 | a standalone activation of an order that is paid or fulfilled and belongs to the user, in one transaction |
| `CommerceRuns.CreatesIsPurchased` | packages/application/src/commerce.ts:259-343 | what creating an order may do to the tables is exactly the purchase step of a run |
| `CommerceRuns.StepKeeps` | packages/application/src/commerce.ts:428-684 | every purchase, preparation, attempt, delivery and standalone activation keeps the invariant, and never leaves an order between payment and activation |
| `CommerceRuns.RunsAreExactlyOnce` | packages/application/src/commerce.ts:552-684 | after any run from empty tables each order has at most one account and one receipt, an account exactly when it is fulfilled, none is left paid, and each account has exactly one opening entry, of its nominal |
| `CommerceLaws.DuplicatesDoNothing` | packages/application/src/commerce.ts:566-577 | removing every later duplicate of a committed delivery from a run gives the same tables |
| `CommerceLaws.DeliveryEffects` | packages/application/src/commerce.ts:556-683 | a delivery that throws changes nothing, a refused one adds its event and nothing else, and none touches another order |
| `CommerceLaws.ThrownDoNothing` | packages/application/src/commerce.ts:552-684 | dropping every delivery that threw, wherever it came in a run, gives the same tables |
| `CommerceLaws.ConfirmationCompletes` | packages/application/src/commerce.ts:631-683 | a fresh genuine confirmation of a pending order throws exactly when activation is impossible, and otherwise commits receipt, account and fulfilment at once |
| `CommerceLaws.KeyStaysNew` | packages/database/src/payment-events.ts:24-42 | an event is still new after a run exactly when every delivery of it in the run threw |
| `CommerceLaws.ForgedUsesUp` | packages/application/src/commerce.ts:566-590 | after a badly signed delivery, and whatever else, every delivery under its key is a duplicate that changes nothing |
| `CommerceLaws.RedeliveryCompletes` | packages/application/src/commerce.ts:552-684 | whatever came before, a genuine confirmation of a pending order completes it if and only if every earlier delivery of its event threw and the world can activate, and the tables end up as if the failed deliveries had never been |
| `CommerceLaws.RunOnward` | packages/domain/src/state-machines.ts:17-80 | over any run orders move only along paths of the state machine, fulfilled is never left, paid is never newly committed, and receipts, accounts and ledger only grow |
| `CommerceLaws.MomentsOnward` | packages/domain/src/state-machines.ts:17-80 | between any two moments of a run from empty tables an order follows a path of the state machine |
| `CommerceLaws.StandaloneFindsAccount` | packages/database/src/activation.ts:89-110 | in any run from empty tables a standalone activation finds the account of a fulfilled order of that user, or throws; it never writes |
| `CommerceLaws.PrerequisitesExactly` | packages/database/src/activation.ts:138-153 | an activation has what it needs exactly when the order's policy, or else the published one, can be loaded, is for evaluations and ready if that is enforced, and a spec set can be chosen; it takes these two |
| `CommerceLaws.EnteredFrom` | packages/domain/src/state-machines.ts:18-26 | which statuses each status can be entered from |
| `CommerceOrigins.AnswersExactly` | packages/application/src/commerce.ts:566-630 | each answer is given exactly for its deliveries: a total that differs from the order's in amount or currency is refused with both named and leaves its event alone |
| `CommerceOrigins.FailureEffects` | packages/application/src/commerce.ts:607-625 | a failed payment fails a pending order and its attempt, and touches nothing else |
| `CommerceOrigins.AgainConfirmed` | packages/application/src/commerce.ts:627-683 | a genuine confirmation of a fulfilled order finds its account and changes nothing |
| `CommerceOrigins.PreparedExactly` | packages/application/src/commerce.ts:428-471 | the answer is ready exactly for a pending or failed order of the user that is not past due, which is then pending; every other answer has its own exact condition and changes nothing |
| `CommerceOrigins.ReadyCompletes` | packages/application/src/commerce.ts:428-684 | after ready, and whatever else leaves the order pending, a fresh genuine confirmation of its total completes it if and only if the world can activate it |
| `CommerceOrigins.CreationExactly` | packages/application/src/commerce.ts:259-343 | each answer to a purchase is given exactly for its cases, and only a new order changes anything |
| `CommerceOrigins.RunOrigins` | packages/application/src/commerce.ts:552-684 | in every run from empty tables each order was bought with consent at the server's price and policy, each event left by a delivery that carried it, and each receipt and account paid for by a genuine confirmation of exactly its order's total, which also fixes owner, nominal, policy, spec set and time |
| `CommerceOrigins.AttemptsFollow` | packages/application/src/commerce.ts:480-655 | in every step the attempt of an order is replaced when one is made, confirmed with its order, failed with it, and else untouched |
| `CommerceOrigins.AttemptExactly` | packages/application/src/commerce.ts:480-505 | an attempt is recorded exactly for an order that exists, and changes nothing else |
| `CommerceOrigins.OneReceipt` | packages/application/src/commerce.ts:643-651 | issuing a receipt again leaves the one there is |
| `CommerceOrigins.ActivationExactly` | packages/database/src/activation.ts:118-229 | an activation succeeds exactly when the account exists or everything for it does, and only a paid order moves on by it |
| `CommerceOrigins.StandaloneExactly` | packages/database/src/activation.ts:89-110 | a standalone activation answers exactly the owner of an order that is fulfilled, or paid with all that an activation needs |
| `RealtimeClient.WebClient.Connect` | apps/web/lib/realtime-client.ts:65-67 | clears the closed flag and asks for a token |
| `RealtimeClient.WebClient.OnToken` | apps/web/lib/realtime-client.ts:67-83 | without a token the client is closed and schedules a reconnect unless the caller closed it; with one it opens a socket |
| `RealtimeClient.WebClient.OnTokenFailure` | apps/web/lib/realtime-client.ts:65-67 | a token promise that rejects ends the call and arms nothing |
| `RealtimeClient.WebClient.OnSocketRefusal` | apps/web/lib/realtime-client.ts:77-78 | a socket constructor that throws ends the call after connecting was shown, and arms nothing |
| `RealtimeClient.WebClient.TakeSocket` | apps/web/lib/realtime-client.ts:78-83 | the new socket takes the place of the held one, which stays alive on its own |
| `RealtimeClient.WebClient.OnOpen` | apps/web/lib/realtime-client.ts:85-99 | resets failures and sequences, and re-subscribes to everything |
| `RealtimeClient.WebClient.OnLooseOpen` | apps/web/lib/realtime-client.ts:85-99 | a socket the client no longer holds runs the same handler when it opens |
| `RealtimeClient.WebClient.OnMessage` | apps/web/lib/realtime-client.ts:101-124 | drops invalid, repeated and older frames, turns a skipped sequence into a resync, and delivers the rest |
| `RealtimeClient.WebClient.OnClose` | apps/web/lib/realtime-client.ts:126-129 | a lost socket schedules a reconnect unless the caller closed it |
| `RealtimeClient.WebClient.OnLooseClose` | apps/web/lib/realtime-client.ts:126-129 | so does the close of a socket the client no longer holds |
| `RealtimeClient.WebClient.OnTimer` | apps/web/lib/realtime-client.ts:201-204 | the timer is forgotten and the client connects |
| `RealtimeClient.WebClient.ScheduleReconnect` | apps/web/lib/realtime-client.ts:196-205 | arms a timer only when none is armed, with the delay of the attempt |
| `RealtimeClient.WebClient.Subscribe` | apps/web/lib/realtime-client.ts:207-210 | adds channels and asks for them |
| `RealtimeClient.WebClient.Resync` | apps/web/lib/realtime-client.ts:219-226 | forgets the channels' sequences and asks for them |
| `RealtimeClient.WebClient.Unsubscribe` | apps/web/lib/realtime-client.ts:228-231 | drops channels and says so |
| `RealtimeClient.WebClient.Close` | apps/web/lib/realtime-client.ts:329-338 | clears the timer, the socket and all sequences |
| `RealtimeRuns.Consecutive` | apps/web/lib/realtime-client.ts:101-124 | between two resets of a channel the delivered sequences are consecutive: the n-th after any delivery is n higher |
| `RealtimeRuns.GapEffects` | apps/web/lib/realtime-client.ts:111-116 | a gap delivers nothing, forgets the channel and sends exactly one re-subscribe if the held socket is open, as it is unless a replaced socket spoke |
| `RealtimeRuns.NextHigherFrame` | apps/web/lib/realtime-client.ts:101-124 | after a lost or invalid frame, the next valid higher frame is detected as a gap, and the very next one is delivered |
| `RealtimeRuns.TimersUnderControl` | apps/web/lib/realtime-client.ts:196-205 | in every run, with any number of sockets, at most one reconnect timer is armed, and each was armed with the delay fixed by the failures since a socket last opened |
| `RealtimeRuns.StuckExactly` | apps/web/lib/realtime-client.ts:65-129 | a client that the caller has not closed has nothing under way exactly when a call of connect threw while it was all there was, and the caller has neither connected nor closed since |
| `RealtimeRuns.NeverStuck` | apps/web/lib/realtime-client.ts:65-129 | as long as connect never throws as the last thing under way, a client that is not closed always has a socket, a token on its way or an armed timer |
| `RealtimeRuns.StuckHearsNothing` | apps/web/lib/realtime-client.ts:65-129 | a stuck client hears of nothing but its caller's calls |
| `RealtimeRuns.ConnectThatThrows` | apps/web/lib/realtime-client.ts:65-67 | one connect whose token promise rejects leaves the client stuck |
| `RealtimeRuns.SecondSocketExactly` | apps/web/lib/realtime-client.ts:65-83 | a second live socket arises exactly when a token arrives while there is one |
| `RealtimeRuns.SecondSocketAhead` | apps/web/lib/realtime-client.ts:65-83 | without a further connect and before the close of a closed socket is reported, a second live socket can still come about exactly when sockets, tokens on their way and an armed timer are more than one |
| `RealtimeRuns.CloseIsQuiet` | apps/web/lib/realtime-client.ts:329-338 | after a close no timer is armed until the caller connects again |
| `RealtimeChannels.OpeningAsks` | apps/web/lib/realtime-client.ts:85-99 | opening the held socket sends exactly one subscribe, for exactly the channels named by a subscribe or a resync and not unsubscribed since, if there are any |
| `RealtimeChannels.AskedExactly` | apps/web/lib/realtime-client.ts:85-231 | in every run an open held socket has been asked for every wanted channel, and for no other but those of gaps noticed while they were not wanted |
| `RealtimeChannels.StrayHappens` | apps/web/lib/realtime-client.ts:111-116 | four inputs after which it has been asked for a channel nobody wants |
| `RealtimeChannels.HandsOnExactly` | apps/web/lib/realtime-client.ts:101-124 | a frame is handed on exactly if it is valid and untracked, the first of its channel or the next one, and never twice |
| `RealtimeChannels.FreshAfterReset` | apps/web/lib/realtime-client.ts:85-124 | after a new socket, a resync, a gap or a close the next valid frame of a channel is handed on whatever its sequence |
| `RealtimeChannels.ShownExactly` | apps/web/lib/realtime-client.ts:65-226 | the listeners are told of an open, lost or wanted connection, of a resync and of a frame that flows, exactly then |
| `RealtimeChannels.MadeExactly` | apps/web/lib/realtime-client.ts:65-99 | a socket is made for a token alone, and its opening announced |
| `RealtimeChannels.NoneLost` | apps/web/lib/realtime-client.ts:65-338 | in every possible run each socket made is alive or has reported its close once, and each call of connect waits or has come back once |
| `RealtimeChannels.ClosedExactly` | apps/web/lib/realtime-client.ts:65-338 | the client counts as closed by the caller exactly from a close until the next connect or timer |
| `RealtimeChannels.WaitsExactly` | apps/web/lib/realtime-client.ts:196-205 | each reconnection waits one, two, five or ten seconds by the number of losses since a socket last opened |
| `Payouts.MockProvider.Submit` | packages/adapters/src/payout-provider.ts:90-117 | a known key answers its record, a new one is recorded as processing under the request's reference |
| `Payouts.MockProvider.GetStatus` | packages/adapters/src/payout-provider.ts:119-143 | a lost record is processing when reference and key agree; a wrong reference is an error |
| `Payouts.MockProvider.Reconcile` | packages/adapters/src/payout-provider.ts:145-162 | the record becomes the configured outcome |
| `Payouts.ManualProvider.Submit` | packages/adapters/src/payout-provider.ts:169-196 | a known key answers its record, a new one is recorded as pending |
| `Payouts.ManualProvider.GetStatus` | packages/adapters/src/payout-provider.ts:198-213 | a lost record is pending; a wrong reference is an error |
| `Payouts.ManualProvider.Reconcile` | packages/adapters/src/payout-provider.ts:215-238 | the record becomes the operator's outcome, which is required |
| `Payouts.ReconcileWithoutRecord` | packages/adapters/src/payout-provider.ts:119-162 | a reconciliation answers the same with and without the record exactly when the record's reference is right in step with what the provider accepts without it |
| `Payouts.Database.InsertRequest` | packages/database/src/payouts.ts:311-345 | a request is inserted unless its cycle has an active one |
| `Payouts.Database.CloseCycle` | packages/database/src/performance.ts:467-476 | a cycle is closed once; closing it again throws |
| `Payouts.Database.Approve` | packages/database/src/payouts.ts:383-467 | a request pending review is approved with its amounts, or rejected if no longer eligible and its cycle is open |
| `Payouts.Database.ReadForRejection` | packages/database/src/payouts.ts:701-708 | the unlocked read passes for a request under review |
| `Payouts.Database.WriteRejection` | packages/database/src/payouts.ts:710-729 | the write takes the status whatever it is, unless the request is reversed or its cycle closed, which the check constraints keep |
| `Payouts.Database.RecordSubmission` | packages/database/src/payouts.ts:523-588 | the first answer for the right key is recorded on an approved request, the same answer again changes nothing, and anything else throws |
| `Payouts.Database.Settle` | packages/database/src/payouts.ts:740-820 | status, debit and the closing of the cycle are written together, once, or it throws |
| `Payouts.Database.RecordReconciliation` | packages/database/src/payouts.ts:602-695 | paid settles, failed and returned fail, other statuses are noted, and a mismatch throws without effect |
| `Payouts.Database.Reverse` | packages/database/src/payouts.ts:832-935 | a settled payout is reversed by an entry opposite to its debit, or nothing changes |
| `Payouts.Database.SubmitPayoutRequest` | packages/application/src/control-payouts-actions.ts:86-141 | one uninterrupted submission: guard, provider, record |
| `Payouts.Database.SettlePayoutRequest` | packages/application/src/control-payouts-actions.ts:187-250 | one uninterrupted settlement: guard, provider, record |
| `PayoutRuns.StepKeeps` | packages/application/src/control-payouts-actions.ts:44-250 | every step of interleaved, crashing and forgetful runs keeps requests, ledger, provider memory and calls consistent |
| `PayoutRuns.OneKeyOneReference` | packages/application/src/control-payouts-actions.ts:86-141 | in every run all submissions of a request carry the same key and get the same reference, from any process of either provider |
| `PayoutRuns.LedgerFollowsStatus` | packages/database/src/payouts.ts:740-935 | in every run the ledger holds one debit for a paid request, that debit and its opposite for a reversed one, and nothing else |
| `PayoutRuns.OnePayoutPerCycle` | packages/database/src/payouts.ts:311-345 | in every run a cycle pays at most one request and has at most one that could still be paid |
| `PayoutRuns.PaidIsSafe` | supabase/migrations/20260807010000_performance_cycles.sql:24-27 | a rejection that writes late never reaches a paid or reversed request, because its cycle keeps its closing time |
| `PayoutRuns.RejectionOvertakes` | packages/database/src/payouts.ts:697-729 | in any world with a request pending review on an open cycle, a rejection that read in time can write after the request was approved and submitted, and take its status |
| `PayoutRuns.RunOnward` | packages/database/src/payouts.ts:383-935 | the statuses of a request only move forward, and what was recorded stays, if and only if no rejection of it is written after its review was over |
| `PayoutRuns.PersistFailsExactly` | packages/database/src/payouts.ts:540-553 | recording an answer fails exactly when another provider's answer was recorded first, or a late rejection was written before any answer was |
| `PayoutRuns.AskedExactly` | packages/application/src/control-payouts-actions.ts:86-110 | a provider is asked about a request exactly when some try that names it passed the guard and lived to make its call |
| `PayoutRuns.OneProviderAsked` | packages/application/src/control-payouts-actions.ts:86-110 | one provider at most is asked exactly when no two such tries name different ones |
| `PayoutRuns.BothAsked` | packages/application/src/control-payouts-actions.ts:86-110 | in any world where the guard passes, two tries, whatever providers they name and whatever processes make them, both reach their provider |
| `PayoutRuns.MemoryDoesNotMatter` | packages/adapters/src/payout-provider.ts:119-238 | in every run a settlement gets the same answer whether or not the provider still has the record |
| `PayoutRuns.ReversalSucceeds` | packages/database/src/payouts.ts:832-935 | in every run a reversal succeeds exactly for a reversed request, or a settled one whose account reconciles |
| `PayoutRuns.RetryCompletes` | packages/application/src/control-payouts-actions.ts:86-141 | after any run an undisturbed retry of an approved request ends in process with its reference and key |
| `PayoutOrigins.RowsExactly` | packages/database/src/payouts.ts:383-935 | in every consistent world a request changes by an approval, a rejection, a first answer, an outcome or a reversal, as each reports, and by nothing else |
| `PayoutOrigins.CreatedExactly` | packages/database/src/payouts.ts:311-345 | a request comes into being exactly when no other of its cycle could still be paid out |
| `PayoutOrigins.ClosedExactly` | packages/database/src/payouts.ts:740-820 | a cycle is closed by the settlement of one of its requests and by nothing else |
| `PayoutOrigins.StatusReported` | packages/database/src/payouts.ts:383-935 | in every run each status past the review is one that an event reported of the request |
| `PayoutOrigins.AmountsAreApproved` | packages/database/src/payouts.ts:445-446 | in every run a request is approved at most once, and one past its review and not turned down carries exactly the amounts of that approval |
| `PayoutOrigins.DebitIsApproved` | packages/database/src/payouts.ts:740-935 | in every run the ledger of a paid request holds one debit, of minus the gross base of the one approval that took effect, and its opposite once reversed |
| `PayoutOrigins.CallsExactly` | packages/application/src/control-payouts-actions.ts:86-250 | a rejection, submission or settlement begins exactly where its guard passes, with what is on record, is answered by its provider, and ends when it writes, dies or its provider refuses |
| `PayoutOrigins.MemoryExactly` | packages/adapters/src/payout-provider.ts:79-239 | a process remembers what its providers made of the calls it made since it started |
| `PayoutProviders.KeysDiffer` | packages/application/src/control-payouts-actions.ts:104 | no two requests share a key |
| `PayoutProviders.SubmissionRemembered` | packages/adapters/src/payout-provider.ts:90-213 | a provider answers what it answered to the submission, turns down any other reference, and gives a repeated submission the same answer |
| `PayoutProviders.LostRecord` | packages/adapters/src/payout-provider.ts:119-213 | without a record the mock stands by a reference that is the key, the manual provider by any |
| `PayoutProviders.OutcomeRemembered` | packages/adapters/src/payout-provider.ts:145-238 | a reconciliation takes effect exactly when the status can be asked for and the operator names the outcome where one is needed, and from then on it is the answer |
| `PayoutProviders.ReviewExactly` | packages/database/src/payouts.ts:311-345 | which statuses are under review, hold the cycle and have a submission on record |
| `PayoutProviders.ApprovalRefused` | packages/database/src/payouts.ts:383-467 | an approval is turned away exactly when the request does not wait for it or would be rejected on a closed cycle |
| `PayoutProviders.RejectionRefused` | packages/database/src/payouts.ts:710-729 | the write of a rejection is turned away exactly by a reversed request or a closed cycle |
| `PayoutProviders.AnswerFiled` | packages/database/src/payouts.ts:523-588 | an answer that is taken is on record, the first one puts the request in process, and a repeated one changes nothing |
| `PayoutProviders.GuardsExactly` | packages/application/src/control-payouts-actions.ts:86-210 | only an approved request with an amount is handed to a provider, only one in process with its provider, reference and key is asked about, and an operator who says nothing means paid |
| `PayoutProviders.SubmissionRefused` | packages/database/src/payouts.ts:523-588 | an answer is turned away exactly when it is for another key, contradicts the one on record, or finds the request not approved |
| `PayoutProviders.OutcomeRefused` | packages/database/src/payouts.ts:602-695 | an outcome is turned away exactly when nothing is in process, it is another submission's, the account does not reconcile or the cycle is closed |
| `PayoutProviders.OutcomeTaken` | packages/database/src/payouts.ts:602-820 | an outcome that is taken settles or fails the request with its debit and cycle, or is noted and changes nothing else |
| `PayoutProviders.ReversalRefused` | packages/database/src/payouts.ts:832-935 | a reversal is turned away exactly when nothing was paid, the account does not reconcile before or after it, or there is no debit |
| `Simulator.HashSymbolToSeed` | packages/adapters/src/market-data-provider.ts:116-122 | the loop folds the symbol into the seed, modulo 2^32 |
| `Simulator.StrideBounds` | packages/adapters/src/market-data-provider.ts:194-207 | one step of a walk counts itself, leaves the mid at one point or above, moves it by at most eight points from there, and keeps it on the price grid |
| `Simulator.WalkBounds` | packages/adapters/src/market-data-provider.ts:194-207 | k steps count k, never fall below one point once moved, move at most 8k points, and stay on the grid |
| `Simulator.MarketSimulator.Tick` | packages/adapters/src/market-data-provider.ts:194-217 | a tick advances exactly the symbols that are not paused and announces one quote for each of those, in order |
| `Simulator.MarketSimulator.Pause` | packages/adapters/src/market-data-provider.ts:232-235 | only the symbol's pause flag changes |
| `Simulator.MarketSimulator.Resume` | packages/adapters/src/market-data-provider.ts:237-243 | only the symbol's pause flag and timestamp change |
| `Simulator.MarketSimulator.BuildTick` | packages/adapters/src/market-data-provider.ts:179-191 | the quote of a symbol's state |
| `Simulator.NonInterference` | packages/adapters/src/market-data-provider.ts:194-243 | after any operations on any symbols a symbol has taken as many steps of its own walk as there were ticks while it was unpaused |
| `Simulator.SameSeedSamePrices` | packages/adapters/src/market-data-provider.ts:92-122 | two simulators with the same seed give a symbol the same price at the same sequence number, whatever else they carry |
| `Simulator.PricesStayPositive` | packages/adapters/src/market-data-provider.ts:194-207 | in every run the mid stays at or above one point if the base does, and quotes are never crossed |
| `SimulatorLaws.StepExactly` | packages/adapters/src/market-data-provider.ts:199-202 | a step goes down exactly for a share below one half, and its length is the floor of eight shares, and one |
| `SimulatorLaws.StrideExactly` | packages/adapters/src/market-data-provider.ts:199-207 | a step moves the mid by that length, or to one point if it would fall below |
| `SimulatorLaws.KnownDraws` | packages/adapters/src/market-data-provider.ts:106-114 | the first words drawn from three seeds |
| `SimulatorLaws.HashChains` | packages/adapters/src/market-data-provider.ts:116-122 | hashing a symbol goes on from where its first part left off |
| `SimulatorLaws.KnownHash` | packages/adapters/src/market-data-provider.ts:116-122 | the state that EURUSD starts from under one seed |
| `SimulatorLaws.QuoteOfRun` | packages/adapters/src/market-data-provider.ts:173-191 | after any operations a quote carries the instant its symbol last moved and the ticks that found it unpaused, is open exactly when the symbol is not paused and that instant is within the threshold, and lies half a spread around the mid |
| `SimulatorLaws.AnnouncedExactly` | packages/adapters/src/market-data-provider.ts:194-217 | a tick of the clock announces one quote for each unpaused symbol, in order, each of the state after the tick |
| `Simulator.QuoteBound` | packages/contracts/src/market-candles.ts:168-170 | bid is at most ask and the mid recomputed from them is within one point |
| `Simulator.QuoteExactly` | packages/contracts/src/market-candles.ts:168-170 | the recomputed mid is exact if and only if the mid is on the grid and the spread is not an odd number of points below twice the mid |
| `Simulator.BoundReached` | packages/contracts/src/market-candles.ts:168-170 | an off-by-one-point quote exists |
| `Analytics.GroupByDay` | packages/application/src/performance-analytics.ts:247-262 | one row per UTC day that has trades, strictly ascending, each the tally of its day, adding up to the whole |
| `Analytics.GroupBySymbol` | packages/application/src/performance-analytics.ts:264-283 | one row per symbol, by displayed net result downwards, each the tally of its symbol with its rounded win rate, adding up to the whole |
| `Analytics.GroupsConserve` | packages/application/src/performance-analytics.ts:247-283 | grouping by any key neither loses nor repeats a result, a trade or a win |
| `Analytics.SameDate` | packages/application/src/performance-analytics.ts:242-251 | grouping by day number is grouping by calendar date |
| `Analytics.RankedIsSorted` | packages/application/src/performance-analytics.ts:256-282 | sorting keeps the rows and orders them |
| `Analytics.RankedEnds` | packages/application/src/performance-analytics.ts:166-199 | after the stable sort the first row is the first lowest and the last the last highest |
| `PerformanceKpis.GroupByDuration` | packages/application/src/performance-analytics.ts:285-303 | the buckets that hold anything, with the wins and losses of their trades, adding up to the timed trades |
| `PerformanceKpis.DurationsConserve` | packages/application/src/performance-analytics.ts:285-303 | each timed trade is counted in exactly one bucket and the dropped buckets lose nothing |
| `PerformanceKpis.BucketIndex` | packages/application/src/performance-analytics.ts:103-109 | the bucket is the one whose bounds hold the duration |
| `PerformanceKpis.ExpectancyIsMean` | packages/application/src/performance-analytics.ts:190-197 | when there are wins and losses the expectancy formula is the net result divided by all trades |
| `PerformanceKpis.ComputeStreak` | packages/application/src/performance-analytics.ts:305-317 | the result is the signed length of the longest run of one sign at the end |
| `PerformanceKpis.StreakUnique` | packages/application/src/performance-analytics.ts:305-317 | there is only one such number |
| `PerformanceKpis.AverageDuration` | packages/application/src/performance-analytics.ts:170-204 | the rounded mean holding time of the timed trades, absent without any |
| `PerformanceKpis.Quotients` | packages/application/src/performance-analytics.ts:155-197 | averages, factor, ratio and expectancy exist exactly when their divisor does, and divide what they should |
| `PerformanceKpis.Figures` | packages/application/src/performance-analytics.ts:155-210 | all figures of a non-empty record agree with it |
| `PerformanceKpis.BuildPerformance` | packages/application/src/performance-analytics.ts:111-211 | the tables and figures of a record, empty exactly without fills, all adding up to it |
| `RecordLaws.TallyOfFills` | packages/application/src/performance-analytics.ts:145-153 | trades add up to the net results of the fills that have one and the realized results of the others |
| `RecordLaws.RowsOfFills` | packages/application/src/performance-analytics.ts:247-303 | the row of a symbol, a day and a holding time sums up exactly the fills with that symbol, on that day, held for that many minutes |
| `RecordLaws.CentsExactly` | packages/application/src/performance-analytics.ts:256-282 | an amount is ranked by its nearest hundredth, on a tie the one farther from zero |
| `RecordLaws.TimesOfFills` | packages/application/src/performance-analytics.ts:170-204 | the mean holding time is that of the fills whose time is known |
| `RecordLaws.TiesKeepOrder` | packages/application/src/performance-analytics.ts:166-282 | sorting keeps the order of rows of the same rank |
| `RecordLaws.ListedByFirst` | packages/application/src/performance-analytics.ts:247-283 | groups are listed by their first trade |

## Left out

- CivilDate.CivilOf: holds for all days, without the range limit of Date values and without the two-digit-year rule of Date.UTC, which no instant from 1970 on can reach.
- MarketSession.LongBarTrades: takes the New York offset as -5 or -4 whole hours, constant within a UTC hour; the time-zone database behind Intl is not part of this model.
- MarketHistory.ValidateHistoryWindow: takes conversion to a binary number as a function; only the producer lemmas assume that it keeps order.
- HistoryStore.TimeframeState.ApplyToTimeframe: covers one symbol and timeframe; the map of states is not modelled.
- HistoryStore.TimeframeState.ReadWindow: answers from memory; the stores behind it that keep bars in PostgreSQL or at a provider, and read them and the open bar at two moments, are not modelled.
- ChartHistory.ChartController.Start: one symbol and one timeframe a controller; viewport, range presets, gap counts and drawing calls are not modelled, and parsed timestamps are finite.
- Cutover.CutoverExact: needs a buffer that holds the stream from some point up to the split on without holes; ChartRuns.BufferHolds says when the chart's does.
- ChartRuns.ChartStaysInStep: one source a session, whose history live ticks continue; a server that restarts is not modelled.
- HistoricalBars.NormalizeProviderBars: takes bars whose fields are already parsed; the decimal patterns are the Decimal and NotDecimal cases of a price.
- TradingDay.NextResetAt: names a trading day by its civil date, not by its formatted string.
- SpecSets.CompareVersions: takes parsed versions; the identifier pattern is the version's presence.
- Commerce.Database.ProcessPaymentWebhookEvent: models evaluation orders only; the activation of FLEX and INSTANT orders, their obligations, and the audit rows are not modelled.
- Commerce.Database.WebhookBody: FLEX and INSTANT orders, which activate another kind of account, are not modelled.
- Commerce.Database.ConfirmPayment: the activation of FLEX and INSTANT orders is not modelled.
- Commerce.Database.PreparePurchaseOrderForPayment: the obligation of a FLEX order, which expires with it, is not modelled.
- Commerce.Database.CreatePurchaseOrder: takes the available offers, the published policy and the generated order id as given; catalogue rules, feature flags and consent texts are not modelled.
- RealtimeRuns.StuckExactly: a listener that throws inside a handler is not modelled.
- RealtimeClient.WebClient.OnMessage: takes a parsed frame with the verdict on its payload and the channel it is tracked on; the message schemas are not modelled.
- Payouts.Database.RecordSubmission: leaves out outbox and audit rows and the stored copies of provider answers.
- Payouts.Database.RecordReconciliation: takes the financial reconciliation of the account as a yes or no; outbox and audit rows, and a stored provider name other than the two, are not modelled. Cycles are open or closed: active and payout_pending are not told apart.
- Payouts.Database.Settle: the next cycle it opens is not modelled; any cycle that is not closed may take a request.
- Payouts.Database.Reverse: reason, evidence, audit and outbox rows are not modelled.
- Payouts.Database.InsertRequest: eligibility, caps, amounts and the idempotency key of a request are not modelled, and the read that found its cycle open may be any time past.
- PayoutRuns.StepKeeps: takes eligibility and amounts of an approval as given.
- Simulator.MarketSimulator.Tick: leaves out subscribers, the interval timer and the formatted strings; decimals are exact.
- PerformanceKpis.BuildPerformance: keeps exact quotients and sums where the program rounds them for display or divides as binary numbers.
- PerformanceKpis.Quotients: exact quotients, where the program divides as binary numbers.
- PerformanceKpis.Figures: exact figures, where the program rounds some of them for display.
- HTTP, WebSocket frames, SQL text, schema parsing and user interface: input and output.
- The FCS, OANDA and Twelve Data adapters beyond the shared bar gate, and the replay provider: network clients and easy members.
- Label, copy, help and view modules: one-step switches and formatting.
