# Verification of the stock pipeline

A Dafny 4.11 model of the parts of the stock-selection pipeline whose behaviour is hardest to see from one
function: the multi-threaded analysis dispatcher, the indicator arithmetic behind the B1 and B2 filters, the
splitting of results into message cards, and the state that lives over days or over many requests.
`dafny verify dfyconfig.toml` checks all of it. Every lemma switches automatic induction off, so each inductive
proof is the one written in its body.

## What is modelled

**The dispatcher** (`Dispatch`, `DispatchInvariant`, `DispatchRuns`, `DispatchFairness`, `DispatchOutcomes`,
`DispatchTotals`, `DispatchTruth`, `DispatchLogin`, `DispatchOrder`, `DispatchDeadline`, `StockDispatchQueue`). One FIFO queue of tickets, any number of worker threads, a main thread that
polls and may drain. `Dispatch` is a step system: each step is one action another thread can observe, and a schedule
is any sequence of enabled steps, so the results hold for every interleaving and every outcome of login, deadline
and executor; `DispatchDeadline` adds what a clock that never goes back makes of the deadline. The order that matters is kept as separate steps: `put` before `task_done`, callback before
`task_done`, a dead worker still taking one ticket and putting it back. `StockDispatchQueue` is the same
dispatcher as an object with the source's fields; its methods follow the step system and keep the circuit breaker
right.

**Indicators and verdicts** (`Indicators`, `IndicatorLaws`, `KdjTheory`, `Verdicts`, `VerdictLaws`, `ScaleInvariance`). The loops of both filters
over real prices, the two KDJ implementations, their exact bounds and exact difference, and the invariance of the
whole verdicts under a change of currency or volume unit.

**Cards** (`JsonText`, `BatchSplit`, `SentCards`). The greedy loop with its binary search, and its optimality; the JSON
text of the message that leaves for a batch, with its size as logged and as a request body.

**State over days** (`SignalTracker`, `SignalLaws`, `KlineCache`, `TokenFailover`, `TokenCounts`, `ReportDay`) **and over one poll**
(`PollOne`), with times as in `TimeUnits`.

**Merging and formatting** (`MergeResults`, `ListExtras`, `ListTags`, `ListLaws`, `TableSpacing`).

The modules whose names end in `Laws`, and `DispatchLogin`, `DispatchOrder` and `TokenCounts`, tell what the specification
functions compute in other terms: by the events of a schedule, the candles, the signals, the replies and the tags.

## What turned out to be conditional

- The all-dead exit of the dispatcher can leave a ticket unreported. `AllDeadExit` gives the exact set: the
  tickets dead workers hold when the drain's last `get_nowait` fails. `DrainCanLoseATicket` exhibits such a run.
- `analysis_completed + analysis_failed` equals the number of submitted stocks on every clean exit exactly when the
  submitted codes are distinct (`CleanExitsAddUp`, `TwoStocksCountAsOne`), because completed results are keyed by
  code; codes that are not distinct can reach the queue (`FinalCodes`).
- After a reported timeout no executor call starts, provided the clock never goes back (`DeadlineEndsCalls`,
  `SetBackClockStartsACall`).
- A daily cache hit stands for a request with the caller's end date exactly when the fetch that stored the entry
  did not straddle 18:00, and for the very same request, start date included, exactly when that fetch moreover began
  on the day of the call (`DailyHit`; `StraddlingFetchGoesStale` and `EveningFetchStartsEarlier` are the two ways to
  miss).
- A card is measured as if it were the only one and before a timestamp and a signature come in. The message of several
  stocks, as its size is logged, exceeds 19 KB exactly when these 83 bytes and the batch numbers do not fit beside the
  measured bytes (`SentCards`, `OnlyCardOver`); it stays within 20 KB (`LoggedWithin20KB`).
- The request body escapes every character outside printable ASCII. It stays within 20 KB exactly when what that adds
  fits beside the message (`BodyWithin20KB`); the fixed labels and icons of a stock alone add 637 bytes, too many for two stocks
  that were measured at more than 19123 (`FullCardTooLong`, `BodyOver`).
- A stock can carry a B2 tag twice, exactly when two B2 items passed it by the same verdict; every other tag is single
  on every input (`DoubledTags`).
- Watchlist and high-score entries are looked up in a set of codes that is not updated while they are added. Codes
  stay distinct exactly when no source names a code twice that was not already in the list (`FinalCodes`,
  `DoubleWatchIsDoubled`).
- The tracker never holds a stock twice for one day exactly when no recording day has a stock with two priced B1
  signals or one bought and closed earlier that day (`NoDuplicates`, `DoubleSignalRepeats`). The second case needs a
  holding time below one day (`HeldADayNeverReopens`, `ZeroHoldRepeats`).
- A stored return is rounded to hundredths of a percent: it shows a gain exactly when the gain was above 0.005
  percent (`StoredReturnTells`), and a sale at a positive price can be stored as a total loss
  (`SaleStoredAsTotalLoss`).
- The deadline drawn from the report day is already past exactly for a start between 09:00 and 09:30 on a trading
  day (`DeadlineAhead`, `MorningStartIsLate`).
- The report day is the next trading day exactly when there is one among ten days, which are looked up, and the day
  after them, which is returned without a look (`PicksTheNext`, `HolidayPicked`).

## Model

| member | source | states |
|---|---|---|
| DispatchInvariant.Inductive | pipeline/stock_dispatch.py:67-238 | every step of every thread keeps the invariant: tickets conserved, unfinished counter exact, circuit breaker, retry counters, main loop |
| DispatchInvariant.InvInit | pipeline/stock_dispatch.py:37-61 | the state after submit_all satisfies the invariant |
| DispatchInvariant.OneHolder | pipeline/stock_dispatch.py:105-138 | a ticket in a worker's hand is not queued, not reported and in no other hand |
| DispatchInvariant.PlacesWorker | pipeline/stock_dispatch.py:95-211 | no worker step creates, copies or loses a ticket |
| DispatchInvariant.AccountedWorker | pipeline/stock_dispatch.py:105-138 | unfinished_tasks stays the queue length plus the number of owed task_done calls |
| DispatchInvariant.NothingUnfinished | pipeline/stock_dispatch.py:84-90 | once the main loop has left cleanly nothing is queued, held or owed |
| DispatchInvariant.DeadGrows | pipeline/stock_dispatch.py:172-181 | no step revives a worker |
| DispatchRuns.ReachableInv | pipeline/stock_dispatch.py:67-238 | the invariant holds in every state of every interleaving |
| DispatchRuns.TicketsAccountedFor | pipeline/stock_dispatch.py:59-138 | each submitted ticket is in exactly one place; unfinished_tasks is queue plus owed calls; task_done never underflows |
| DispatchRuns.CircuitBreaker | pipeline/stock_dispatch.py:163-221 | the streak is the failures since the last success and below the threshold while alive; at most one dead_skipped per worker; failed only at max_retry; all_dead outcomes only when all workers are dead |
| DispatchRuns.DeadWorkersStop | pipeline/stock_dispatch.py:111-114 | a dead worker stays dead and finishes no further executor call, over any continuation |
| DispatchRuns.PotentialStep | pipeline/stock_dispatch.py:84-138 | the termination measure never rises and falls with every step that is not a wait |
| DispatchRuns.RunsAreBounded | pipeline/stock_dispatch.py:84-211 | no run has more than 8n(max_retry+1) + 5W + 3 steps that are not waits |
| DispatchRuns.TriesBounded | pipeline/stock_dispatch.py:172-211 | at most n(max_retry+1) executor calls, at most max_retry+1 per ticket |
| DispatchRuns.AttemptsCount | pipeline/stock_dispatch.py:140-211 | wherever a ticket is, queued, held, drained or reported, its attempt is at most max_retry and counts the calls it had before the present one |
| DispatchRuns.BouncesOnce | pipeline/stock_dispatch.py:111-114 | a worker puts back at most one ticket because it is dead |
| DispatchRuns.CanAdvance | pipeline/stock_dispatch.py:84-138 | no reachable state is stuck: two steps are enough for some thread to move on, at most one of them a wait |
| DispatchRuns.CanSettle | pipeline/stock_dispatch.py:84-138 | every reachable state can be continued until all threads have stopped |
| DispatchFairness.FairRoundExists | pipeline/stock_dispatch.py:84-138 | from every state a round can be scheduled that gives each live thread two turns or sees it stop |
| DispatchFairness.FairRoundAdvances | pipeline/stock_dispatch.py:84-138 | in every such round of an unsettled state somebody gets out of waiting |
| DispatchFairness.FairRunSettles | pipeline/stock_dispatch.py:67-138 | any schedule of as many such rounds as the state's potential ends with all threads stopped |
| DispatchFairness.DispatchEnds | pipeline/stock_dispatch.py:67-138 | from the start 8n(max_retry+1) + 5W + 3 such rounds end every run |
| DispatchOutcomes.CompletedCode | pipeline/orchestrator.py:212-214 | a code is among the results exactly when a completed outcome has it |
| DispatchOutcomes.TotalsAddUp | pipeline/orchestrator.py:240-244 | completed plus failed never exceeds the outcomes and equals them iff no two completed tickets share a code |
| DispatchOutcomes.CleanExit | pipeline/stock_dispatch.py:84-93 | after the clean exit every ticket has exactly one outcome, nothing is queued or owed, and with distinct codes the totals equal the number submitted |
| DispatchOutcomes.CleanExitIsFinal | pipeline/stock_dispatch.py:84-93 | after the clean exit nothing is ever queued, tried or reported again |
| DispatchOutcomes.ResidueIsFinal | pipeline/stock_dispatch.py:111-114 | after the drain the set of unreported tickets never changes |
| DispatchOutcomes.AllDeadExit | pipeline/stock_dispatch.py:84-92 | after the drain and all threads settle, the unreported tickets are exactly those dead workers held at the drain's last get; at most one per worker, none if none held one |
| DispatchOutcomes.DrainCanLoseATicket | pipeline/stock_dispatch.py:111-114 | a run in which a ticket ends up queued and unreported |
| DispatchLogin.TrialsAreCalls | pipeline/stock_dispatch.py:140-181 | the trials of a run are the calls that ended in it, in order, each with the answer it got |
| DispatchLogin.LoginDecides | pipeline/stock_dispatch.py:95-99 | a worker whose login fails is dead and gone from then on and makes no call in the whole run; one whose login works comes out of it alive |
| DispatchLogin.AllLoginsFail | pipeline/stock_dispatch.py:95-99 | when every login fails nothing is ever tried and every reported ticket is skipped by the drain |
| DispatchLogin.DeadExactlyWhen | pipeline/stock_dispatch.py:172-217 | a worker is dead iff its login failed or its failures since a success have at some point reached the threshold |
| DispatchOrder.FirstInFirstOut | pipeline/stock_dispatch.py:59-61 | over any run the tickets taken and the tickets left are the tickets queued and put back, in that order |
| DispatchOrder.RetryWaitsItsTurn | pipeline/stock_dispatch.py:211 | a retry is taken after everything that was waiting when it was put back |
| DispatchTotals.SoloExit | pipeline/stock_dispatch.py:84-170 | for any stocks there is a run in which one worker completes every one of them and the main loop leaves cleanly |
| DispatchTotals.CleanExitsAddUp | pipeline/orchestrator.py:240-244 | completed plus failed is the number submitted on every clean exit iff the submitted codes are distinct or there is no worker |
| DispatchTotals.TwoStocksCountAsOne | pipeline/orchestrator.py:212-214 | a run that completes two stocks of one code and counts one |
| DispatchDeadline.NoCallStarts | pipeline/stock_dispatch.py:116-127 | once a worker has found the deadline passed, and with a clock that does not go back, no worker starts another executor call |
| DispatchDeadline.DeadlineEndsCalls | pipeline/stock_dispatch.py:116-127 | from a reported timeout on no call starts, and every later outcome is a timeout or a drained one or of a ticket under way at that moment |
| DispatchDeadline.SetBackClockStartsACall | pipeline/stock_dispatch.py:116 | with a clock set back a call starts after a timeout was reported |
| DispatchTruth.ReportsAreTruthful | pipeline/stock_dispatch.py:154-211 | completed outcomes name the worker whose call for that very ticket succeeded; failed and skipped ones the worker whose call failed; no other outcome hides a success |
| DispatchTruth.NoSuccessLost | pipeline/stock_dispatch.py:154-170 | a stock has at most one successful call, and has one iff its completion is reported or about to be |
| DispatchTruth.SettledTellsAll | pipeline/stock_dispatch.py:84-93 | once all threads have stopped a stock is reported completed iff a call for it succeeded |
| DispatchTruth.PrimaryNamesReporter | pipeline/stock_dispatch.py:163-170 | with distinct codes primary_by names the worker that reported the completion |
| StockDispatchQueue.FullSet | pipeline/stock_dispatch.py:219-221 | comparing the sizes of the two sets decides whether every worker is dead |
| StockDispatchQueue.DispatchQueue.constructor | pipeline/stock_dispatch.py:32-44 | the fields start as an empty dispatcher with a circuit breaker that is right |
| StockDispatchQueue.DispatchQueue.SubmitAll | pipeline/stock_dispatch.py:59-61 | queues every stock in order with attempt 0 |
| StockDispatchQueue.DispatchQueue.KillWorker | pipeline/stock_dispatch.py:213-217 | marks exactly this worker dead and keeps every streak |
| StockDispatchQueue.DispatchQueue.IsAllDead | pipeline/stock_dispatch.py:219-221 | true iff every worker is dead |
| StockDispatchQueue.DispatchQueue.OnSuccess | pipeline/stock_dispatch.py:163-166 | the worker's failures since its last success are none, no other worker's streak and no other stock's primary changes, and the circuit breaker stays right |
| StockDispatchQueue.DispatchQueue.OnFailure | pipeline/stock_dispatch.py:172-181 | the streak counts one failure more; the worker dies now iff it was alive and its failures since its last success reach the threshold; nobody else is touched |
| StockDispatchQueue.DispatchQueue.Fire | pipeline/stock_dispatch.py:67-238 | one step of any thread changes the fields as the step system does and keeps the invariant |
| StockDispatchQueue.DispatchQueue.Run | pipeline/stock_dispatch.py:59-93 | the object follows the step system along any schedule |
| StockDispatchQueue.DispatchQueue.DrainRemaining | pipeline/stock_dispatch.py:223-238 | reports every queued ticket as skipped in queue order and pays each off, as 3n+1 turns of the main thread alone do in the step system |
| ReportDay.NextTradingDay | pipeline/orchestrator.py:32-54 | the first trading day among ten days from the candidate, else the day after them |
| ReportDay.PicksTheNext | pipeline/orchestrator.py:32-54 | the result is the next trading day iff the ten days looked up or the day after them, returned without a look, have one |
| ReportDay.HolidayPicked | pipeline/orchestrator.py:50-54 | with no trading day in the ten days looked up a day without trading is returned |
| ReportDay.DeadlineAhead | pipeline/main.py:146-147 | the deadline lies ahead iff the start is not between 09:00 and 09:30 of a trading day |
| ReportDay.MorningStartIsLate | pipeline/main.py:146-147 | a start at 09:15 of a trading day has a deadline a quarter of an hour ago |
| Indicators.MaxOfIsGreatest | filter.py:39 | the window's high is one of its elements and none is higher |
| Indicators.MinOfIsLeast | filter.py:40 | the window's low is one of its elements and none is lower |
| Indicators.CalculateMa | filter.py:93-102 | None for too few prices, else element i is the mean of the period starting at day i |
| Indicators.CalculateEma | filter.py:78-91 | None for too few prices, else the EMA seeded with the mean of the first period |
| Indicators.RsvOnPrefix | filter.py:32-46 | the RSV of a prefix is the sliding-window RSV of its last day |
| Indicators.RsvFromDayN | filter.py:121-127 | the list built day by day is the tail of the full RSV series from day n-1 on |
| Indicators.CalculateKdj | filter.py:48-76 | 50s for no values, else the last elements of SMA(RSV,3,1), SMA(K,3,1) and 3K-2D |
| Indicators.CalculateSma | stock_filter_b2.py:43-54 | the loop computes the SMA recurrence |
| Indicators.CalculateKdjSeries | stock_filter_b2.py:57-93 | on each day K, D and J are those of the fused loop over the RSVs so far |
| IndicatorLaws.SumIs | filter.py:98-100 | the sum of one price is the price and sums add up over stretches |
| IndicatorLaws.EmaIs | filter.py:78-91 | p times the first element is the sum of the first p prices; then p + 1 times an element is twice the price plus p - 1 times the element before |
| IndicatorLaws.WhiteIs | filter.py:78-91 | the white line is the last value of the one 10-day EMA of the one 10-day EMA of the closes |
| IndicatorLaws.YellowMoves | filter.py:144-160 | raising a close moves the yellow line by a weight that depends on its age alone and is 0 from 114 days on |
| IndicatorLaws.RsvTells | stock_filter_b2.py:57-84 | for the highest high and the lowest low of the window the RSV is 50 when they are equal, else the x with x (hh - ll) = 100 (c - ll) |
| IndicatorLaws.FilterRsvTells | filter.py:32-46 | the same of the list that the B1 filter builds |
| IndicatorLaws.SuspendedIsFifty | filter.py:42-43 | on flat candles K, D and J are 50 in both implementations |
| IndicatorLaws.SuspendedPassesNothing | filter.py:42-43 | a stock with flat candles passes neither B1 nor a B2 |
| KdjTheory.SmaWithin | stock_filter_b2.py:43-54 | an SMA with 0 <= m <= n has one element per input and stays within their range |
| KdjTheory.EmaWithin | filter.py:78-91 | an EMA has the stated length and stays within the range of its inputs |
| KdjTheory.RsvWithin | filter.py:32-46 | on well-formed candles every RSV is in [0,100] |
| KdjTheory.KdWithin | filter.py:62-71 | K, D in [0,100] and 0 <= 6D - K <= 500 |
| KdjTheory.KdjBounds | filter.py:48-76 | in both implementations K, D in [0,100] and J in [-8000/243, 32300/243] for candles of any number |
| KdjTheory.JBoundsAreReached | filter.py:48-76 | for every length from 13 days on there are well-formed candles whose J in both filters is the lower end of the interval, and others at the upper end |
| KdjTheory.ImplementationsConverge | stock_filter_b2.py:57-93 | t days after day n-1 the two implementations differ by (2/3)^t e0 in K, (2/3)^t (f0 + t e0/3) in D and (2/3)^t (3e0 - 2f0 - 2t e0/3) in J |
| KdjTheory.FiltersDisagreeBy | stock_filter_b2.py:130-137 | the J that B1 tests and the J that B2 tests on the same bars differ exactly by that amount |
| KdjTheory.FiltersJWithin | filter.py:121-132 | both J values that the filters compare lie in the tight interval on well-formed bars |
| Verdicts.VolumeLoop | filter.py:175-183 | true iff some day in range at least doubled the volume before it |
| Verdicts.WeeklyLoop | filter.py:216-229 | last week's close above the weekly white line, waved through with too few weeks |
| Verdicts.B1StrategyFilter | filter.py:104-229 | true iff all eleven conditions, stated on the bars, hold |
| Verdicts.B2Filter | stock_filter_b2.py:96-198 | both verdicts are exactly their conditions stated on the bars |
| VerdictLaws.B1Tells | filter.py:104-229 | the B1 verdict on the candles alone: every percentage as a product, the volume as two neighbouring days, the averages as sums |
| VerdictLaws.B2Tells | stock_filter_b2.py:96-198 | the B2 verdicts on the candles alone, without divisions |
| Verdicts.NeverBoth | filter.py:525-540 | no bars pass B1 and a B2 verdict |
| ScaleInvariance.EmaMapped | filter.py:78-91 | the EMA of scaled prices is the scaled EMA |
| ScaleInvariance.RsvMapped | filter.py:32-46 | RSV does not change with the unit of the prices |
| ScaleInvariance.B1ScaleInvariant | filter.py:104-229 | multiplying daily prices, weekly prices and volumes by any positive factors leaves the B1 verdict unchanged |
| ScaleInvariance.B2ScaleInvariant | stock_filter_b2.py:123-198 | the same for both B2 verdicts |
| BatchSplit.FurthestFrom | feishu_notify.py:337-348 | the binary search finds the longest batch that may be sent |
| BatchSplit.SplitIntoBatches | feishu_notify.py:330-351 | the outer loop builds the greedy split |
| BatchSplit.GreedyIsSplit | feishu_notify.py:330-351 | the batches concatenate to the input, each of 1 to 30 stocks and, if it has several, at most 19 KB |
| BatchSplit.GreedyLimits | feishu_notify.py:332-348 | no batch is empty or has more than 30 stocks, and one of several is measured at no more than 19456 bytes |
| BatchSplit.GreedyTakesLongest | feishu_notify.py:337-350 | every batch is the longest that may be sent from where it starts |
| BatchSplit.GreedyIsOptimal | feishu_notify.py:330-351 | no contiguous split with the same limits has fewer batches |
| BatchSplit.SplitIsBest | feishu_notify.py:330-351 | the split of the whole input is valid and as short as any |
| JsonText.EscapedIs | feishu_notify.py:48 | the size of an escaped text is its UTF-8 size plus what each character grows |
| JsonText.GrowthIsNone | feishu_notify.py:48 | escaping leaves the size alone iff every character is below 0x7F |
| SentCards.MeasuredIs | feishu_notify.py:342-343 | the measured size, a base plus the bytes of the stocks, is the UTF-8 size of the card's JSON text |
| SentCards.MessageSizes | feishu_notify.py:38-44 | the message is 83 bytes and the batch suffix longer than the measured card, and grows by escaping as its title, suffix and stocks do |
| SentCards.SentCards | feishu_notify.py:38-45 | a message of several stocks is logged with more than 19 KB iff envelope and suffix do not fit beside the measured card, and by no more than their length |
| SentCards.LoggedWithin20KB | feishu_notify.py:354-358 | with fewer than 10^464 batches it is logged with at most 20 KB |
| SentCards.BodyWithin20KB | feishu_notify.py:48 | the request body is the message plus what escaping adds, and within 20 KB iff that fits |
| SentCards.StockGrows | feishu_notify.py:200-305 | the fixed labels and the 23 icons of a stock grow by at least 637 bytes |
| SentCards.FullCardTooLong | feishu_notify.py:354-358 | a batch whose measured size and 637 bytes a stock exceed 20 KB less the envelope has a body over 20 KB |
| SentCards.OnlyCardOver | feishu_notify.py:344 | two stocks in one batch, the only one, whose message is 83 bytes over 19 KB |
| SentCards.BodyOver | feishu_notify.py:48 | two stocks in one batch within 19 KB whose body is over 20 KB |
| SignalTracker.DaysRecords | strategy_researcher/cross_day_tracker.py:40-78 | a day's records cover exactly the stocks with a priced signal, at positive prices, and no stock twice iff none has two priced B1 signals |
| SignalLaws.RecordsTell | strategy_researcher/cross_day_tracker.py:40-78 | one record per priced B1 signal in order, with its price and score; then one per stock that only B2 signals name, at the price of the first, with score 0 |
| SignalLaws.SalesAreMarketPrices | strategy_researcher/cross_day_tracker.py:109-133 | over any run a closed record was closed by a verification with prices on its sale date, at the price that had for it, without a sale only when it had none |
| SignalLaws.PendingTells | strategy_researcher/cross_day_tracker.py:98-118 | a verification keeps a record iff it is younger than its holding time, or has no price and is younger than that plus three days; without any prices it keeps all |
| SignalTracker.TagsTellEverySignal | strategy_researcher/cross_day_tracker.py:56-66 | a stock's record carries B1 if it had a priced B1 signal, then the tags of all its priced B2 signals in order |
| SignalTracker.StoredReturnTells | strategy_researcher/cross_day_tracker.py:126-131 | the stored return is within 0.005 of the exact one, positive iff the gain was above 0.005 percent, negative iff the loss was, and -100 iff at most 0.005 percent of the price was left |
| SignalTracker.StoredReturnMonotone | strategy_researcher/cross_day_tracker.py:126-131 | a better sale never stores a smaller return |
| SignalTracker.SaleStoredAsTotalLoss | strategy_researcher/cross_day_tracker.py:131 | a sale at 0.1 of a stock bought at 10000 is stored as -100 percent |
| SignalTracker.VerifySplits | strategy_researcher/cross_day_tracker.py:98-131 | verification splits the pending records in two without loss or copy |
| SignalTracker.EveryRunEarns | strategy_researcher/cross_day_tracker.py:28-140 | over any run at all buy prices are positive, and every closed record was held its time and was sold at a price, with the stored return, or waited out its three days |
| SignalTracker.RunKeepsInv | strategy_researcher/cross_day_tracker.py:28-140 | with dates in order and a holding time of at least a day moreover no record is dated later than today |
| SignalTracker.RecordsConserved | strategy_researcher/cross_day_tracker.py:28-140 | every record ever made is pending or closed, once |
| SignalTracker.LogGrows | strategy_researcher/cross_day_tracker.py:216-229 | closed records are only added, never changed or removed |
| SignalTracker.NoDuplicates | strategy_researcher/cross_day_tracker.py:33-37 | over any run no (code, buy date) occurs twice over pending and closed iff no recording day has a stock with two priced B1 signals or one bought and closed that day |
| SignalTracker.HeldADayNeverReopens | strategy_researcher/cross_day_tracker.py:105-108 | with dates in order and a holding time of at least a day the second case cannot come about |
| SignalTracker.DoubleSignalRepeats | strategy_researcher/cross_day_tracker.py:42-53 | two priced B1 signals of one stock make two records of it |
| SignalTracker.VerifyLeavesNothingOverdue | strategy_researcher/cross_day_tracker.py:98-118 | after a verification with prices exactly the records still to wait are pending, none aged hold + 3 days or more |
| SignalTracker.ZeroHoldRepeats | strategy_researcher/cross_day_tracker.py:33-37 | with a holding time of 0 days a record closed the same day is made again: the second case is real |
| SignalTracker.CrossDayTracker.RecordTodaySignals | strategy_researcher/cross_day_tracker.py:28-81 | the loops record what the specification says and nothing on a day already recorded |
| SignalTracker.CrossDayTracker.VerifyPending | strategy_researcher/cross_day_tracker.py:87-134 | the loop keeps and closes what the specification says |
| SignalTracker.CrossDayTracker.SaveVerified | strategy_researcher/cross_day_tracker.py:216-229 | appends to the file of the day and leaves the other files alone |
| KlineCache.ExpiredIffLaterEndDate | data_storage.py:34-43 | an entry is expired iff a request now would ask for a later end date than one at its timestamp |
| KlineCache.TruncateKeepsEndDate | data_storage.py:50 | the timestamp loses less than a second, is whole seconds, and stands for the same end date |
| KlineCache.Cache.LoadStockData | data_storage.py:57-92 | the entry's rows iff there is one and it is unexpired |
| KlineCache.Cache.SaveStockData | data_storage.py:46-54 | touches this key alone, and the saved rows count as fresh until a request would ask for a later end date |
| KlineCache.Cache.GetStockHistoryData | api.py:238-300 | answers from the cache or the API and stores non-empty replies |
| KlineCache.EntriesComeFromCalls | api.py:298-300 | after any run each entry holds the API's answer to one of its calls for that key |
| KlineCache.DailyHit | api.py:245-277 | a daily hit returns the answer to an earlier call saved in the caller's 18:00 window; it stands for a request with the same end date iff its fetch did not straddle 18:00, and for the same start and end date iff that fetch moreover began on the day of the call |
| KlineCache.DailyHitsAgree | api.py:245-277 | if no fetch straddles 18:00 every daily hit stands for a request with the same end date |
| KlineCache.WeeklyHit | data_storage.py:35-37 | a weekly entry is hit iff it is at most 72 hours old by its timestamp; no hit comes later than 72 hours after the save, none is missed until the last second before |
| KlineCache.AnswersAreReplies | api.py:238-300 | a call that hits returns an earlier reply for its key, any other its own |
| KlineCache.FetchedRowsAreServed | api.py:238-300 | fetched rows replace what was stored and answer the next local call of the key that is in time |
| KlineCache.OtherEntriesStay | api.py:298-300 | no other key changes, and nothing does on a hit or without rows |
| KlineCache.StraddlingFetchGoesStale | api.py:272-277 | a fetch across 18:00 is served later as the new day's data |
| KlineCache.EveningFetchStartsEarlier | api.py:268-277 | a fetch at 20:00 answers a 10:00 call of the next day with a start date one day older |
| TokenFailover.TokenPool.GetCurrentToken | api.py:22-42 | the first free token under its limit, else the paid one, on counters started again each day |
| TokenFailover.TokenPool.MarkFailure | api.py:94-133 | an authorisation or quota error marks the token twice, a 403 never, any other failure once |
| TokenFailover.TokenPool.ApiRequest | api.py:55-138 | the loop is the request as specified: state, tokens taken and answer |
| TokenCounts.CounterIs | api.py:22-133 | a token's counter is the replies with data of the current day, plus the limit for each error that marks it once and twice that for each 401 or 429; 403s and unknown stocks add nothing, a new day starts again |
| TokenCounts.AvailableWhile | api.py:33-38 | a token is available iff nothing has marked it that day and it had fewer than limit replies with data |
| TokenCounts.DataDayTokens | api.py:22-47 | on a day of data each free token serves exactly limit attempts, in list order, and the paid one the rest |
| TokenCounts.RequestEnds | api.py:66-138 | a request ends with the first reply that is data or an unknown stock, and else makes one attempt more than there are tokens with the paid one |
| TokenFailover.RequestRuns | api.py:66-138 | a request runs through its attempts one by one and stops with the first that ends it |
| TokenFailover.DailyLimitHolds | api.py:22-47 | over any sequence of attempts a free token gets data at most limit times a day |
| TokenFailover.TriedInOrder | api.py:22-52 | after any failures, 403s among them, the next token is the next in list order that no failure has marked, then the paid one |
| TokenFailover.ExhaustedRequest | api.py:66-138 | whatever attempts came before, a request failing to the end without a 403 takes each token still free once in list order, then the paid one at least twice, and leaves none free |
| TokenFailover.PaidForTheDay | api.py:33-42 | with no free token left every later attempt of that day takes the paid one |
| PollOne.PollOne | pipeline/analysis_client.py:116-209 | ends in the first round with a verdict, after at most ceil(timeout/30) status queries |
| PollOne.EndingTells | pipeline/analysis_client.py:124-182 | the kind of result by clock and reply: timed out, completed with or without a report, failed; and no round before had any of these |
| PollOne.LostOnTheTenth | pipeline/analysis_client.py:186-198 | service loss is reported iff the last ten queries were connection errors with nothing between, and never later |
| PollOne.LoginAfterThree | pipeline/analysis_client.py:142-157 | a new login is tried on a 401 iff two earlier 401s came with only connection errors between and no token gained |
| MergeResults.MergedIs | pipeline/filter_runner.py:122-193 | the merged codes are those that passed; tags are B1 if it passed, then every B2 pass; details are the last B1 pass with the B2 details over them |
| MergeResults.SortIs | pipeline/filter_runner.py:195-211 | the sort orders by the key, keeps every stock and keeps equal keys in order |
| MergeResults.RankedIs | pipeline/filter_runner.py:122-212 | ranked codes are distinct, exactly those that passed, ordered by priority then score |
| MergeResults.RankedTags | pipeline/filter_runner.py:122-212 | a ranked stock has the tags of its passes |
| ListLaws.MergedCodes | pipeline/filter_runner.py:131-163 | a code is merged iff a B1 item or a strict or loose B2 item with a successful analysis has it, and it is not empty |
| ListLaws.SortKeepsOrder | pipeline/filter_runner.py:211 | stocks of equal key stand in the sorted list in the order in which they came |
| ListLaws.RankedByTags | pipeline/filter_runner.py:195-211 | strict-only stocks first, then strict and loose, loose only, and without B2; in a class by falling B1 score, 0 without one; ties in dictionary order |
| ListLaws.RankedByVerdicts | pipeline/filter_runner.py:195-211 | the same order on the verdicts of the B2 items |
| ListLaws.DictionaryOrder | pipeline/filter_runner.py:131-193 | the dictionary has the codes in the order in which they first pass, B1 before B2 |
| ListLaws.MergedNames | pipeline/filter_runner.py:145-192 | a merged stock has the name of its last B1 pass, else of its first B2 pass |
| ListLaws.TouchedTells | pipeline/orchestrator.py:117-130 | a known stock keeps code and name; a detail takes the value of the last scanned stock of its code that has it |
| ListLaws.NewEntriesTell | pipeline/filter_runner.py:91-101 | an unknown watched code becomes a bare stock, an unknown scanned stock comes in as it is |
| ListLaws.WatchedStandFirst | pipeline/filter_runner.py:83-105 | after the pass over a watchlist that is not empty no watched stock follows one that is not |
| ListLaws.WatchedByTags | pipeline/filter_runner.py:105 | no watched stock follows one that is not, and neither kind changes its own order |
| MergeResults.MergeResults | pipeline/filter_runner.py:122-212 | the two loops build the merged dictionary entry by entry, and its values in order come out ranked |
| ListExtras.InjectIs | pipeline/filter_runner.py:85-101 | known stocks are touched in place and new entries follow in order |
| ListExtras.InjectCodes | pipeline/filter_runner.py:85-101 | the codes are those of list and extras; distinct iff no two extras share an unknown code |
| ListExtras.WatchedComeFirst | pipeline/filter_runner.py:105 | the watchlist sort moves watched stocks forward and keeps both orders |
| ListExtras.InjectWatchlist | pipeline/filter_runner.py:83-105 | the loops produce the watchlist pass |
| ListExtras.MergeHighScores | pipeline/orchestrator.py:117-130 | the loops produce the high-score pass |
| ListExtras.FinalCodes | pipeline/orchestrator.py:117-130 | the final list has exactly the codes of its sources, distinct iff no source names an unknown code twice |
| ListExtras.DoubleWatchIsDoubled | pipeline/filter_runner.py:85-101 | a doubled watchlist entry that passed nothing is analysed twice |
| ListTags.TagsTellSources | pipeline/filter_runner.py:83-105 | every stock carries a tag exactly as often as its source named it: B1, watchlist and high-score once, a B2 tag once per B2 pass by that verdict, no other tag |
| ListTags.DoubledTags | pipeline/filter_runner.py:159-193 | on every input B1, watchlist and high-score tags are single, and a B2 tag is doubled on exactly the stocks two B2 items passed by that verdict |
| ListTags.NoStockHasBoth | pipeline/filter_runner.py:176-179 | with both filters on the same bars no stock carries a B1 and a B2 tag |
| ListTags.B2BeforeB1 | pipeline/filter_runner.py:195-211 | then all B2 stocks precede all B1 stocks, these by falling score |
| TableSpacing.SpaceTables | pipeline/report_generator.py:37-56 | the loop with its flag produces the spaced lines |
| TableSpacing.StripIs | pipeline/report_generator.py:41-42 | stripping takes away all white space on both sides and nothing else |
| TableSpacing.LinesTell | pipeline/report_generator.py:41-43 | a line is blank iff it is all white space, and a table line iff its first and last other characters are bars |
| TableSpacing.WellSpacedMeansBounded | pipeline/report_generator.py:37-56 | nothing is missing iff every maximal run of table lines is bounded by a blank line or the edge on both sides |
| TableSpacing.SpacingIs | pipeline/report_generator.py:37-56 | only empty lines are inserted, all tables are bounded, no other insertion is shorter, and lines are unchanged iff already bounded |
| TableSpacing.SplitJoin | pipeline/report_generator.py:58 | splitting joined lines gives them back |
| TableSpacing.JoinSplit | pipeline/report_generator.py:38 | joining the split lines gives the text back |
| TableSpacing.NormalizeIs | pipeline/report_generator.py:37-58 | on the text the pass is idempotent and changes nothing iff every table is bounded |

## Left out

- Floating point: prices, indicators and returns are reals; the rounding of stored returns is modelled on reals, the display rounding of details is not.
- StockDispatchQueue: callbacks that raise, worker names that repeat, the five-second limit on joining threads and the logging; the executor is any source of success and failure.
- SentCards: what the values in a stock's text are; of the text only the fixed labels and the number of icons count. The text messages sent before the cards.
- SignalTracker: names, the reading and writing of the JSON files and a tags list shared between two records; get_performance_summary only averages closed records.
- KlineCache: a configured start or end date or range, monthly bars, unreadable files and clear_expired_data.
- TokenFailover: several threads using the counters at once; what the reply holds.
- PollOne: the report that a completed task brings; the clock is taken to advance by at least the poll interval from one round to the next.
- MergeResults: the dictionaries of details are values, so a details dictionary shared between a raw result and a merged stock is not modelled; the exchange field is carried along and left out.
- ListExtras: the scan that finds high scores; one loop stands for the two injection loops, which differ only in what they do to an entry.
- TableSpacing: the rendering of the Markdown that follows.
- Verdicts: the statistics and scores that b1_strategy_filter only displays.
- ReportDay: the holiday calendar, which is an arbitrary set of days.
- HTTP, Redis, MongoDB, the web servers, the message service, the language-model clients, the scheduler and process shutdown.
