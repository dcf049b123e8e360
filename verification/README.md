# Offline trading simulator: model and proofs

This project models the research core of the strategy engine: the two five-minute executors, the
one-minute next-open engine, the paper simulator with its audit log and sizer, the checkpointed job
runner, and the exactness transformations around them. Loops that the program runs over local state or
over an object's fields are methods, proved equal to a specification function; what the program promises
is then proved of that function for every input, every run or every reachable state.

| Part | Files |
|---|---|
| tariff, candles, indicators, entry rules | `Costs`, `TariffLaws`, `Series`, `Strategies`, `ScaleInvariance`, `SignalLaws`, `SignalRules`, `SignalExamples` |
| the causal executor and its phase14 predecessor | `Executor`, `ExecutorLoops`, `ExecutionOrder`, `Causality`, `Refinement` |
| what their reports mean, told from the candles | `TradeLaws`, `EntryLaws`, `ExecutionRecords`, `MarkedDrawdown`, `Acceptance`, `ReportFigures` |
| drawdown: the bound, for which tariffs it holds, a day on which it fails for the others | `Drawdown`, `DrawdownExact`, `WildDay`, `DrawdownWitness` |
| sizing, audit log, paper simulation | `Sizing`, `PlannedRisk`, `Audit`, `Lifecycles`, `ReplayLaws`, `Paper`, `PaperStory`, `PaperRun`, `PaperLaws`, `PaperRows` |
| the one-minute engine | `Backtest`, `BacktestLoop`, `BacktestLaws`, `FillLaws`, `DecisionLaws`, `RunEnds`, `BacktestCausality` |
| datasets, corpora, slices | `Corpus`, `CorpusRules`, `CorpusErrors`, `CorpusLaws`, `Markets` |
| the job runner | `Jobs`, `JobsSafety`, `JobsRun`, `JobsYields`, `JobsBlocked` |
| decimals, canonical policies, patches | `Decimals`, `CanonicalPolicy`, `CanonicalMeaning`, `DecimalText`, `FingerprintLaws`, `Patch`, `PatchLaws`, `PatchHeaders` |

Conventions. Instants are whole minutes since the UTC epoch and the exchange runs on UTC + 330. Money is
`real`. Hashes and JSON texts are functions passed in; a lemma that needs them to tell values apart says so
in its `requires`. Errors the program raises are `Result` values that carry the program's message.

What turned out false, with its exact condition:

- The diff applier puts a hunk without an old side one line too early. `Patch.InsertionMisplaced` shows it;
  `Patch.AppliesExactlyWhenHunksLand` says for which scripts the result is nevertheless right.
- The bar fingerprint does not see the instrument when there are no bars: `DecimalText.PreimageExact`.
- A run that dies while it writes its configuration leaves a directory that no later run can use.
  `JobsBlocked.ConfigurationInterrupted` reaches such a directory at any character, and
  `JobsBlocked.DyingWhileConfiguringIsFinal` shows that nothing launched afterwards ever yields. By
  `JobsBlocked.ConflictsExactly` a run is refused exactly when the text on file is not its own.
- That a larger sale leaves more cash fails for tariffs the validator admits: `Costs.SteepTariffLosesOnLargerSale`.
  `Costs.ProceedsGrowExactly`: it holds at all amounts exactly when the tariff's slope is at most one.
- The marked drawdown the executors report can be less than the drawdown of the closed trades: a sale at a stop far
  below the purchase can cost more than it brings. `DrawdownWitness.BoundExactlyUnderMildTariffs`: it bounds the closed
  one in all runs exactly when the slope is at most one and either there is no transaction tax or even the largest order
  would cost its own amount again to buy. Under a tax, `Drawdown.MarkedDrawdownBoundsClosed` still gives the bound for
  the runs whose closed equity never falls below zero.

## Model

| member | source | states |
|---|---|---|
| Costs.CostsGrow | apps/strategy-engine/src/strategy_engine/backtest/costs.py:83-92 | a larger order, on a larger basis, never costs less on either side |
| Costs.SplittingNeverSaves | apps/strategy-engine/src/strategy_engine/backtest/costs.py:83-92 | one order never costs more than the two orders it splits into, capped brokerage included |
| Costs.ProceedsGrowExactly | apps/strategy-engine/src/strategy_engine/backtest/costs.py:83-92 | a larger sale leaves at least as much cash, at all amounts, exactly when the tariff's slope is at most one; a cap of zero takes brokerage out of the slope |
| Costs.SteepTariffTakesMore | apps/strategy-engine/src/strategy_engine/backtest/costs.py:83-92 | at a slope above one, of two sales the brokerage cap does not bind the larger always leaves strictly less |
| TariffLaws.TariffsMeet | apps/strategy-engine/src/strategy_engine/backtest/costs.py:69-77 | where one historical tariff ends and the next begins, exactly one of the two quotes on every day, the first day included and the last excluded |
| TariffLaws.FixedTariffIgnoresTime | apps/strategy-engine/src/strategy_engine/backtest/costs.py:77 | a tariff fixed as of a date quotes the same at any time |
| TariffLaws.SampleQuotations | apps/strategy-engine/src/strategy_engine/backtest/costs.py:83-92 | every charge of two worked orders: transaction tax on the average of both legs, of sales only, stamp duty on purchases only, GST on neither |
| TariffLaws.OpeningInUtc | apps/strategy-engine/src/strategy_engine/backtest/costs.py:77 | 9:15 on the exchange's clock is 3:45 UTC of the same day |
| Series.Quality | apps/strategy-engine/src/strategy_engine/phase14/engine.py:103-111 | the loops return exactly the owed starts that are missing and the starts that are not owed |
| Series.TicksWellFormed | apps/strategy-engine/src/strategy_engine/phase14/engine.py:306-384 | on a complete series the candles met by the session loops run gap-free inside each session and in order across sessions |
| Strategies.ComputeIndicator | apps/strategy-engine/src/strategy_engine/phase14/engine.py:154-183 | the loops for EMA and RSI compute the recursive averages; none on too short a history or after too long a lag |
| Strategies.LowerBand | apps/strategy-engine/src/strategy_engine/phase1415/strategies.py:124-130 | comparing squares decides exactly whether a price is at or below the mean less two deviations |
| Strategies.NeverFiresTwiceRunning | apps/strategy-engine/src/strategy_engine/phase1415/strategies.py:102-112 | no rule fires on two consecutive candles of a session |
| SignalLaws.HigherCloseStillFires | apps/strategy-engine/src/strategy_engine/phase1415/strategies.py:147-191 | the direction of all six rules: a session that fires still fires when its last close is any higher |
| SignalRules.FiresExactly | apps/strategy-engine/src/strategy_engine/phase1415/strategies.py:147-191 | when each rule fires, exactly, and from which candle of a session on: recovery and trend from the twenty-second, momentum and reversion from the twenty-first, the weighted price from the second, the breakout from the fourth, above every high of the first three |
| SignalRules.LagIgnoresNewest | apps/strategy-engine/src/strategy_engine/phase14/engine.py:155-156 | a lagged indicator is the indicator as it stood so many values ago |
| SignalLaws.BandDecides | apps/strategy-engine/src/strategy_engine/phase1415/strategies.py:115-130 | a last value is at or below its own lower band exactly when its distance below the mean of the nineteen before is large enough for their spread |
| SignalExamples.EachRuleFires | apps/strategy-engine/src/strategy_engine/phase1415/strategies.py:147-191 | for each rule, whatever the stop, the target and the minimum volume, a session on which it fires, and not one candle earlier |
| SignalExamples.EmaLags | apps/strategy-engine/src/strategy_engine/phase14/engine.py:160-172 | on a steady trend the exponential average of n stands exactly (n - 1) / 2 steps behind |
| SignalExamples.RampStrength | apps/strategy-engine/src/strategy_engine/phase14/engine.py:173-183 | the strength index of a steady rise is 100, of a steady fall 0, of a price that stands still 50 |
| SignalExamples.EqualVolumes | apps/strategy-engine/src/strategy_engine/phase1415/strategies.py:133-138 | at equal volumes the weighted price of standing candles is the mean of their closes |
| ScaleInvariance.DecisionsAreScaleInvariant | apps/strategy-engine/src/strategy_engine/phase1415/strategies.py:147-191 | multiplying all prices of a session by any positive number changes no decision of any of the six rules |
| ScaleInvariance.RsiUnchanged | apps/strategy-engine/src/strategy_engine/phase14/engine.py:173-183 | the strength index is independent of the unit of price |
| ScaleInvariance.RsiBounded | apps/strategy-engine/src/strategy_engine/phase14/engine.py:173-183 | the strength index lies between 0 and 100 |
| ScaleInvariance.BollingerScales | apps/strategy-engine/src/strategy_engine/phase1415/strategies.py:115-130 | the band's mean scales with the price and its variance with the square |
| Executor.ComputeMetrics | apps/strategy-engine/src/strategy_engine/phase14/engine.py:250-272 | the loop over trades computes counts, sums and the closed drawdown as functions of all trades |
| ReportFigures.ExecutedFigures | apps/strategy-engine/src/strategy_engine/phase14/engine.py:250-272 | in every report the metrics count exactly the gaining and losing trades, net is gross less costs, and the closed drawdown is one of the falls from the highest closed equity so far, none of which is greater |
| ReportFigures.SimulatedFigures | apps/strategy-engine/src/strategy_engine/phase14/engine.py:250-272 | the same of every phase14 report |
| ExecutorLoops.Execute | apps/strategy-engine/src/strategy_engine/phase1415/execution.py:106-229 | the nested session and candle loops, their break on an unresolved exit and every error equal the step-by-step specification |
| ExecutorLoops.Simulate | apps/strategy-engine/src/strategy_engine/phase14/engine.py:290-396 | the phase14 loops equal their step-by-step specification |
| ExecutorLoops.RunSession | apps/strategy-engine/src/strategy_engine/phase1415/execution.py:127-213 | one session's loop leaves the state the specification has after the session's candles |
| TradeLaws.TradesAreTold | apps/strategy-engine/src/strategy_engine/phase1415/execution.py:67-76 | told from the candles alone: every trade is entered at the open after slippage and left on the first candle that reaches its stop or target, or on the session's last; STOP exactly when the low reaches the stop, else TARGET exactly when the high reaches the target; sold after slippage at the lesser of stop and open, at the target, or at the close; gross, fees and net of these prices; and an unresolved position is one whose exit candle traded too little |
| TradeLaws.OldTradesAreTold | apps/strategy-engine/src/strategy_engine/phase14/engine.py:333-376 | the same of every trade of the phase14 executor |
| EntryLaws.EntriesAreExact | apps/strategy-engine/src/strategy_engine/phase1415/execution.py:134-167 | a position is entered, or an entry refused, at exactly the opens before which the rule fired on the candle before, in the same session, with nothing held; entered exactly when buying is allowed, the session goes on, the candle before has the volume, and cash and ceiling suffice |
| EntryLaws.OldEntriesAreExact | apps/strategy-engine/src/strategy_engine/phase14/engine.py:317-332 | the same of the phase14 executor, with the volume of the candle itself |
| ExecutionRecords.DecisionsAreExact | apps/strategy-engine/src/strategy_engine/phase1415/execution.py:139-167 | one decision for each candle at which an order is due, with the candle before and its volume, and whether it was filled |
| ExecutionRecords.ExposureIsTimeHeld | apps/strategy-engine/src/strategy_engine/phase1415/execution.py:205-206 | both executors report as exposure the seconds their trades were held |
| ExecutionRecords.AdmissionRefusals | apps/strategy-engine/src/strategy_engine/phase1415/execution.py:109-115 | an incomplete, too long or unreviewed series is refused with its own error, in this order |
| Acceptance.RunsExactly | apps/strategy-engine/src/strategy_engine/phase1415/execution.py:127-134 | under a tariff in force on every session's date an admitted series runs to its end or to an exit that cannot be filled; the one refusal left is the opening-range rule's, of a session that does not open at 9:15 or is shorter than twenty minutes |
| MarkedDrawdown.DrawdownIsWorstFall | apps/strategy-engine/src/strategy_engine/phase1415/execution.py:168-207 | the marked drawdown is the worst fall, over the candles on which a position is held, of cash and what a sale at the low would leave, below the highest equity of the candles before; equity and cash told from the trades |
| MarkedDrawdown.OldDrawdownIsWorstFall | apps/strategy-engine/src/strategy_engine/phase14/engine.py:333-380 | the same of the phase14 executor |
| ExecutionOrder.ManageEffects | apps/strategy-engine/src/strategy_engine/phase1415/execution.py:168-206 | managing a candle changes position, cash and trades only by one sale, which closes the position that was open, with its own entry and times; the loop body ExecutorLoops.ManagePosition computes it |
| Drawdown.ExitAttainable | apps/strategy-engine/src/strategy_engine/phase1415/execution.py:67-76 | every exit is at a price the candle traded, or at a target the candle opened above; a stop sells below the entry price and a target above |
| ExecutorLoops.LiquidityIsPrevious | apps/strategy-engine/src/strategy_engine/phase1415/execution.py:41-47 | inside a session the liquidity candle found by scanning all candles is the one just before |
| ExecutionOrder.ExecutionsAreChronological | apps/strategy-engine/src/strategy_engine/phase1415/execution.py:127-213 | trades never overlap, refusals fall between them, an unresolved position comes last, and at most 15000 entries arise |
| ExecutionOrder.ExecutionsArePlaced | apps/strategy-engine/src/strategy_engine/phase1415/execution.py:139-206 | every position opens on a candle that is not its session's first and ends on a candle of the same session, both under a tariff in force |
| ExecutionOrder.RunOrderly | apps/strategy-engine/src/strategy_engine/phase1415/execution.py:139-211 | after every candle: times in order, flat between sessions, an armed order only after a signal |
| Causality.ExecutionIsCausal | apps/strategy-engine/src/strategy_engine/phase1415/execution.py:106-214 | two accepted series that agree before t and on the open at t give the same decisions, refusals and fills up to t and the same trades closed by t |
| Causality.ErrorsAreCausal | apps/strategy-engine/src/strategy_engine/phase1415/execution.py:106-213 | two admitted series that agree before t: an error a candle before t raises in one run is raised by the same candle in the other, and both executions end in it |
| DrawdownExact.MildTariffBounds | apps/strategy-engine/src/strategy_engine/phase1415/execution.py:170-207 | under a mild tariff (slope at most one, and no transaction tax or no purchase cheaper than its amount) the marked drawdown bounds the closed one in every run, whatever the series, definition and settings |
| DrawdownExact.OldMildTariffBounds | apps/strategy-engine/src/strategy_engine/phase14/engine.py:333-380 | the same for the phase14 executor |
| DrawdownWitness.BoundExactlyUnderMildTariffs | apps/strategy-engine/src/strategy_engine/phase1415/execution.py:170-207 | the bound holds for all series, definitions and settings exactly when the tariff is mild |
| DrawdownWitness.OldBoundExactlyUnderMildTariffs | apps/strategy-engine/src/strategy_engine/phase14/engine.py:333-380 | the same for the phase14 executor, over all its strategies |
| DrawdownWitness.RuinBreaks | apps/strategy-engine/src/strategy_engine/phase1415/execution.py:170-207 | at a slope of at most one, with a tax and an affordable largest order, a day on which the second stop takes closed equity below zero and the closed drawdown above the marked one |
| DrawdownWitness.SteepBreaks | apps/strategy-engine/src/strategy_engine/phase1415/execution.py:170-207 | at a slope above one, a day on which the sale at the stop leaves less than the mark at the lower low |
| DrawdownWitness.WholeAmountsSuffice | apps/strategy-engine/src/strategy_engine/phase1415/execution.py:170-207 | under a transaction tax alone, a day of whole prices and a whole capital on which both executors report a marked drawdown below the closed one |
| Drawdown.CashConserved | apps/strategy-engine/src/strategy_engine/phase14/engine.py:330-376 | at every candle cash is the capital plus the net of the closed trades less the open position's cost |
| Refinement.CausalRefinesPhase14 | apps/strategy-engine/src/strategy_engine/phase1415/execution.py:127-213 | when every candle is liquid, the causal executor on S01 and the phase14 executor give the same trades, refusals, exposure, drawdown and metrics, or the same error, and no exit is unresolved |
| Refinement.SessionsAreShort | apps/strategy-engine/src/strategy_engine/phase1415/execution.py:128-129 | no accepted series has a session over 288 candles: SESSION_RESOURCE_LIMIT is unreachable |
| Sizing.Size | apps/strategy-engine/src/strategy_engine/phase1417/paper.py:91-129 | the downward search returns the greatest quantity that meets every limit, zero if none, and fails only for a tariff not in force |
| Sizing.FeasibleDownwardClosed | apps/strategy-engine/src/strategy_engine/phase1417/paper.py:118-128 | every smaller positive quantity than a feasible one is feasible |
| Sizing.StartCoversFeasible | apps/strategy-engine/src/strategy_engine/phase1417/paper.py:107-117 | the starting minimum discards no feasible quantity |
| Sizing.TestsDecide | apps/strategy-engine/src/strategy_engine/phase1417/paper.py:123-126 | below the starting quantity the two tests of the loop decide feasibility |
| Sizing.SizedWithinLimits | apps/strategy-engine/src/strategy_engine/phase1417/paper.py:107-127 | the size is the greatest quantity within every limit, each written out in the order's own figures: order and policy quantity, both exposures and the ceiling after the price buffer, participation, cash with fees |
| Sizing.GapsSizeNothing | apps/strategy-engine/src/strategy_engine/phase1417/paper.py:59-75 | a policy with any limit absent or zero, each named, sizes nothing |
| PlannedRisk.PlannedIsStopLoss | apps/strategy-engine/src/strategy_engine/phase1417/paper.py:119-125 | the planned loss of a quantity is exactly what the executor loses on a sale at the stop level: slippage of the sale and both fees included |
| PlannedRisk.StopsLoseThePlan | apps/strategy-engine/src/strategy_engine/phase1417/paper.py:431-478 | every paper position stopped on a candle that opens at or above its stop level loses exactly the loss planned for its size, at most the risk per trade |
| Audit.AuditLog.Emit | apps/strategy-engine/src/strategy_engine/phase1417/paper.py:145-182 | appends the sealed row and updates states and keys, or raises the program's error and changes nothing; the log stays genuine |
| Audit.AuditLog.Replay | apps/strategy-engine/src/strategy_engine/phase1417/paper.py:184-215 | rebuilds exactly the recorded log, or refuses with the first error re-emission meets |
| Audit.EmittedStaysGenuine | apps/strategy-engine/src/strategy_engine/phase1417/paper.py:145-215 | replay accepts whatever emission produced and returns it unchanged |
| Audit.FinalHashDeterminesLog | apps/strategy-engine/src/strategy_engine/phase1417/paper.py:170-179 | two accepted logs with one final hash are the same log, if no two of their rows share a hash and none has the genesis value |
| Audit.NamesAreSuffixFree | apps/strategy-engine/src/strategy_engine/phase1417/paper.py:149 | the concatenated key text determines signal and phase |
| Audit.IdempotencyImplied | apps/strategy-engine/src/strategy_engine/phase1417/paper.py:146-151 | a permitted transition never meets its own key, because the transition graph only climbs |
| Audit.EmissionSucceedsExactly | apps/strategy-engine/src/strategy_engine/phase1417/paper.py:145-153 | an emission succeeds exactly when the transition is allowed, the limit is not reached and time does not go back |
| ReplayLaws.AcceptedExactly | apps/strategy-engine/src/strategy_engine/phase1417/paper.py:145-215 | a recorded log is accepted exactly when each of its rows may follow those before it: named and bound like the log, a permitted step of its signal, of a new name, no earlier, linked to the hash of the last, sealed by its own, with every defaulted column, and at most 200000 of them |
| Lifecycles.SignalsLive | apps/strategy-engine/src/strategy_engine/phase1417/paper.py:30-40 | in every accepted log the rows of a signal are the beginning of one of ten lives: a position is opened only after approval, creation, acceptance and a fill |
| Lifecycles.LivesByTransitions | apps/strategy-engine/src/strategy_engine/phase1417/paper.py:30-40 | a life goes on exactly by the permitted transitions |
| Paper.SortingSorts | apps/strategy-engine/src/strategy_engine/phase1417/paper.py:382 | candidates are walked in order of time, and the sort keeps them all |
| Paper.CandidatesApart | apps/strategy-engine/src/strategy_engine/phase1417/paper.py:374-381 | candidates of one execution have distinct times and each is over when the next begins |
| Paper.CandidatesGrounded | apps/strategy-engine/src/strategy_engine/phase1417/paper.py:383-396 | every candle a candidate looks up exists, its liquidity candle exists, and the tariff is in force when it is quoted |
| Paper.EventSucceeds | apps/strategy-engine/src/strategy_engine/phase1415/paper.py:37-54 | the signal event of a completed candle is always valid |
| PaperRun.Simulate | apps/strategy-engine/src/strategy_engine/phase1417/paper.py:343-500 | the run never fails and records exactly the entries and cash of its specification, refused and unexecuted runs included; at most 135000 events arise, the log replays, every signal ends, and cash is the capital plus the recorded flows |
| PaperRun.WalkAll | apps/strategy-engine/src/strategy_engine/phase1417/paper.py:371-488 | the loop over candidates records exactly the story of its candidates: each refused for the limit, the daily loss or its size, or opened at the greatest quantity and closed, until one cannot be left; SIGNAL_EXPIRED never occurs |
| PaperLaws.TakenExactly | apps/strategy-engine/src/strategy_engine/phase1417/paper.py:398-426 | a position is opened exactly when the date has not lost the daily loss and some quantity is within every limit, and then at the greatest such quantity |
| PaperLaws.RunsCommit | apps/strategy-engine/src/strategy_engine/phase1417/paper.py:404-444 | every accepted order and every fill in the log of any run carries that greatest quantity, a fill also the execution's entry price, on a date that has not lost the daily loss |
| PaperLaws.DailyLossGuard | apps/strategy-engine/src/strategy_engine/phase1417/paper.py:399-426 | once cash is below the cash at the date's first due position by the daily loss, nothing more is opened on that date and cash does not move |
| PaperLaws.OpenedWithinDailyLoss | apps/strategy-engine/src/strategy_engine/phase1417/paper.py:399-426 | whenever a position is opened, the date's loss has been below the daily loss at every candidate of the date so far |
| PaperRows.StoryRows | apps/strategy-engine/src/strategy_engine/phase1417/paper.py:382-488 | every row is told from its candidate: its instant, why it was refused, the quantity, price and fees it was bought and sold at, why it was left, and whether the exit candle could absorb it |
| PaperRows.EveryEntryRecorded | apps/strategy-engine/src/strategy_engine/phase1417/paper.py:374-425 | in a run that does not halt every refusal of the execution is recorded as a rejection at its instant, and every position it entered as a fill or a rejection at its entry, under the signal of the candle before |
| PaperRows.StoryCash | apps/strategy-engine/src/strategy_engine/phase1417/paper.py:382-488 | every recorded cash is the capital moved by the recorded fills and closes up to it |
| PaperRows.RefusedRuns | apps/strategy-engine/src/strategy_engine/phase1417/paper.py:347-369 | a halted run, a refused one and one whose execution fails record their one signal, the halt, all the reasons (which the text gives back) or the error, and the capital; nothing is traded |
| PaperRun.TradeThrough | apps/strategy-engine/src/strategy_engine/phase1417/paper.py:427-488 | a taken position writes nine events and ends closed, or halted exactly when its exit cannot be filled |
| BacktestLoop.Run | apps/strategy-engine/src/strategy_engine/backtest/engine.py:258-430 | the loop over bars and the final pass equal the step-by-step specification, refusals included |
| BacktestLaws.ResolveBalanced | apps/strategy-engine/src/strategy_engine/backtest/engine.py:314-368 | whatever the ladder decides, cash stays initial cash plus gross less costs, less what is held; the loop body BacktestLoop.ExecutePending computes it |
| BacktestLaws.GuardsAreUnreachable | apps/strategy-engine/src/strategy_engine/backtest/engine.py:375-423 | for every callback a run ends only in a policy, tariff, forced-exit or callback error: the overnight and both ledger errors are dead code |
| BacktestLaws.LedgerIsSound | apps/strategy-engine/src/strategy_engine/backtest/engine.py:355-376 | final cash is initial cash plus gross less all fill costs, and cash is never negative |
| BacktestLaws.IntentsResolvedOnce | apps/strategy-engine/src/strategy_engine/backtest/engine.py:293-368 | outcome i carries id i + 1, filled outcomes are the fills in order, and fills pair into trades of equal quantity opened and closed on one date |
| FillLaws.ReportsAreTold | apps/strategy-engine/src/strategy_engine/backtest/engine.py:314-368 | every fill of a report is told from its bar: price, lot, volume, cost, window, alternation; every outcome too: why an intent was filled, refused, superseded or left to lapse, on the position and the cash that the fills before it leave |
| FillLaws.SlippageIsAdverse | apps/strategy-engine/src/strategy_engine/backtest/engine.py:61-66 | a fill's reference is its bar's open; a purchase pays above it and a sale receives below it, by exactly the configured basis points, strictly if there are any |
| DecisionLaws.ReportsListen | apps/strategy-engine/src/strategy_engine/backtest/engine.py:369-412 | one equity point for each bar, marked at its close; the strategy is asked at every bar, shown the bars of its session (or of its dataset) and the state the fills leave; what it proposes, and nothing else but the forced exits, becomes an intent |
| RunEnds.RefusedExactly | apps/strategy-engine/src/strategy_engine/backtest/engine.py:258-292 | a run is refused exactly for a trading day that opens after the entry window or closes by the forced exit, or else for a bar on which the tariff is not in force |
| RunEnds.StoppedWhere | apps/strategy-engine/src/strategy_engine/backtest/engine.py:314-402 | any other failing run has its bar: one on which the strategy raised or proposed an impossible quantity on what it was shown, or the forced-exit minute of a position that the bar cannot take or whose sale does not pay its fee; the fills until then are told from the bars |
| ReportFigures.ReportFiguresAreTold | apps/strategy-engine/src/strategy_engine/backtest/engine.py:413-430 | wins and losses count the trades that gain and lose, and the drawdown is the greatest fall of equity between two instants |
| BacktestLaws.ForcedExitFailsExactly | apps/strategy-engine/src/strategy_engine/backtest/engine.py:306-346 | a forced exit fails exactly when the bar has no volume or the fees exceed cash and proceeds |
| BacktestLaws.RunKept | apps/strategy-engine/src/strategy_engine/backtest/engine.py:302-411 | after every bar the books balance, intents are filed and an open position is of today and before its forced exit |
| BacktestLaws.BarShape | apps/strategy-engine/src/strategy_engine/backtest/dataset.py:216-237 | in complete sessions bars advance minute by minute and every session reaches the forced-exit minute |
| BacktestCausality.RunsAreCausal | apps/strategy-engine/src/strategy_engine/backtest/engine.py:293-411 | no look-ahead: two markets of one calendar that agree on all bars before t, and at t on the open and on whether there is volume, give the same outcomes, fills, trades and equity points up to t, for every callback |
| BacktestCausality.DesksAreCausal | apps/strategy-engine/src/strategy_engine/backtest/engine.py:302-411 | on such markets the desk before each bar up to t and what its open does are the same, a failing forced exit included, and an error raised before t ends both runs alike |
| Corpora.ValidateShard | apps/strategy-engine/src/strategy_engine/backtest/dataset.py:192-238 | the loops over dates and minutes decide validity as the recursive definition does, error by error |
| Corpora.ValidateCorpus | apps/strategy-engine/src/strategy_engine/backtest/corpus.py:35-77 | the loops over shards and days decide validity as the recursive definition does, error by error |
| CorpusRules.DatasetValidExactly | apps/strategy-engine/src/strategy_engine/backtest/dataset.py:192-238 | a dataset is valid exactly when its window is at most 31 days, its data were complete by the cutoff, it has 1 to 44640 bars, every date is covered, and the bars are the minutes of its sessions in order |
| CorpusRules.CorpusValidExactly | apps/strategy-engine/src/strategy_engine/backtest/corpus.py:35-77 | a corpus is valid exactly when it spans at most 366 known dates, its shards are valid, of one identity, in order, inside it and active on no common date, and show exactly the sessions its calendar expects |
| CorpusErrors.DatasetErrors | apps/strategy-engine/src/strategy_engine/backtest/dataset.py:192-238 | a dataset is refused for its window, cutoff, size, the first date its calendar does not cover and what is wrong with it, and then for its bars, each with its own error and in this order |
| CorpusErrors.CorpusRefusals | apps/strategy-engine/src/strategy_engine/backtest/corpus.py:35-77 | a corpus is refused for its range, size, calendar, the first shard at fault and its fault, the sessions it does not show or shows in excess, and then its length, each with its own error and in this order |
| CorpusLaws.NoSilentSubset | apps/strategy-engine/src/strategy_engine/backtest/corpus.py:133-144 | a slice that succeeds holds exactly the corpus bars that start in its range, in order |
| CorpusLaws.SliceSucceedsExactly | apps/strategy-engine/src/strategy_engine/backtest/corpus.py:133-144 | a slice inside the corpus succeeds exactly when it keeps a shard and no shard with a session dated in the range reaches outside it |
| CorpusLaws.ShardsSeen | apps/strategy-engine/src/strategy_engine/backtest/corpus.py:54-69 | the days seen are those active in one shard, and in one only |
| CorpusLaws.BarsPlaced | apps/strategy-engine/src/strategy_engine/backtest/dataset.py:216-237 | every bar of a valid dataset is inside its window, on an expected day of its calendar |
| Markets.DatasetFeedsEngine | apps/strategy-engine/src/strategy_engine/backtest/dataset.py:192-238 | a valid dataset's bars are exactly the minutes of its sessions, which is what the engine relies on |
| Markets.CorpusFeedsEngine | apps/strategy-engine/src/strategy_engine/backtest/corpus.py:35-77 | a valid corpus's bars are exactly the minutes of its own calendar's sessions |
| Markets.GuardsUnreachableOnValidData | apps/strategy-engine/src/strategy_engine/backtest/engine.py:258-278 | on every validated dataset or corpus, for every configuration and callback, the guards never fire |
| JobsSafety.MutualExclusion | apps/strategy-engine/src/strategy_engine/phase1415/jobs.py:73-77 | in every history of launches, steps, crashes and repairs at most one live run holds the directory |
| JobsSafety.CheckpointsAreTransparent | apps/strategy-engine/src/strategy_engine/phase1415/jobs.py:78-138 | in every history each run has yielded, in order, the bound evaluation of the datasets it loaded, and a completed one has yielded every pair |
| JobsYields.YieldsTold | apps/strategy-engine/src/strategy_engine/phase1415/jobs.py:88-136 | in every history what a run has yielded at the place of a member, a window and a definition is the evaluation of just these on the dataset it loaded, under its family and policy; and a completed run has yielded at every place |
| JobsYields.UsedExactly | apps/strategy-engine/src/strategy_engine/phase1415/jobs.py:99-118 | a checkpoint text, genuine or not, is used for a pair exactly when it is a record of the pair's dataset, its digest that of its result, and its result the report the pair owes, whatever the findings |
| JobsSafety.OneConfigurationPerDirectory | apps/strategy-engine/src/strategy_engine/phase1415/jobs.py:79-87 | all runs that ever yielded from one directory were configured alike |
| JobsSafety.SteadyInputs | apps/strategy-engine/src/strategy_engine/phase1415/jobs.py:88-93 | while the inputs stay put, a run works on the current dataset of every pair |
| JobsSafety.CheckpointUsedExactly | apps/strategy-engine/src/strategy_engine/phase1415/jobs.py:99-118 | a checkpoint is used exactly when it was filed for this pair on this dataset, and is refused with the program's error otherwise |
| JobsSafety.BindingSucceeds | apps/strategy-engine/src/strategy_engine/phase1415/hardening.py:195-228 | after the partition checks a result can always be bound: RESULT_FAMILY_CONFLICT is unreachable |
| JobsSafety.HistorySafe | apps/strategy-engine/src/strategy_engine/phase1415/jobs.py:73-138 | every action, a crash between any two file-system steps included, keeps the directory's invariant |
| JobsRun.Store.Run | apps/strategy-engine/src/strategy_engine/phase1415/jobs.py:30-138 | the lock, the pinned configuration, the nested loops and the release equal their specification |
| JobsRun.Store.SettlePair | apps/strategy-engine/src/strategy_engine/phase1415/jobs.py:93-135 | reading, or evaluating and writing a pending file and replacing, has the specified effect on the directory |
| JobsRun.RunIsAHistory | apps/strategy-engine/src/strategy_engine/phase1415/jobs.py:73-138 | an undisturbed run is one history of the step machine |
| JobsRun.RunYieldsWhatIsOwed | apps/strategy-engine/src/strategy_engine/phase1415/jobs.py:88-136 | on genuine checkpoints a run yields the evaluation of the current datasets and leaves genuine checkpoints and no lock |
| JobsRun.CompletesExactlyWhenResumable | apps/strategy-engine/src/strategy_engine/phase1415/jobs.py:76-135 | an undisturbed run completes exactly when there is no lock, no other configuration, and for each pair a checkpoint of the current dataset or neither checkpoint nor pending file |
| JobsRun.RecoversAfterCrashes | apps/strategy-engine/src/strategy_engine/phase1415/jobs.py:73-138 | however often runs crashed, with unchanged inputs and the lock and pending files removed, a run under the configuration on file completes |
| JobsRun.KeysDistinct | apps/strategy-engine/src/strategy_engine/phase1415/jobs.py:94-96 | checkpoint keys tell pairs apart when symbols contain no brace |
| JobsBlocked.ConflictsExactly | apps/strategy-engine/src/strategy_engine/phase1415/jobs.py:78-87 | with the lock free a run ends in CHECKPOINT_CONFIGURATION_CONFLICT exactly when another text is on file |
| JobsBlocked.NobodysConfigurationIsFinal | apps/strategy-engine/src/strategy_engine/phase1415/jobs.py:79-87 | a configuration text that is nobody's, found while no run is alive, stays in every history, and no run launched from then on yields or completes |
| JobsBlocked.DyingWhileConfiguringIsFinal | apps/strategy-engine/src/strategy_engine/phase1415/jobs.py:79-87 | in every history, a run that dies before the end of its configuration leaves a directory in which no later run yields or completes |
| JobsBlocked.ConfigurationInterrupted | apps/strategy-engine/src/strategy_engine/phase1415/jobs.py:73-87 | an accepted run can die after any number of its configuration's characters; after the lock is removed that part is all the directory holds, and the same run conflicts with it |
| CanonicalPolicy.FormIsComplete | apps/strategy-engine/src/strategy_engine/phase1418/canonical_policy.py:13-42 | two supported values have one canonical form exactly when they are equal up to decimal scale, signed zero, map order and list against tuple |
| CanonicalPolicy.SupportedExactly | apps/strategy-engine/src/strategy_engine/phase1418/canonical_policy.py:13-42 | the form is defined exactly for values without non-finite numbers, non-text keys and unknown types |
| CanonicalPolicy.DecimalFormExact | apps/strategy-engine/src/strategy_engine/phase1418/canonical_policy.py:23-35 | two decimals have one node exactly when they are equal as numbers |
| CanonicalPolicy.NormalizeDecimal | apps/strategy-engine/src/strategy_engine/phase1418/canonical_policy.py:30-35 | the loop that pops zeros terminates and computes the stripped digits and the raised exponent |
| CanonicalMeaning.FormReads | apps/strategy-engine/src/strategy_engine/phase1418/canonical_policy.py:13-42 | the canonical node of every supported value tells the value: every leaf carries its kind and a text that reads back as it, a decimal its sign, digits and exponent without trailing zeros |
| CanonicalMeaning.DecimalFormReads | apps/strategy-engine/src/strategy_engine/phase1418/canonical_policy.py:23-35 | a decimal's node denotes the same number: sign 1 exactly for negative numbers, digits that read as the mantissa and end in a nonzero digit, and the exponent |
| Decimals.NormalFormUnique | apps/strategy-engine/src/strategy_engine/phase1418/canonical_policy.py:32-35 | m times ten to the e determines m and e when ten does not divide m |
| DecimalText.PrintsExactly | apps/strategy-engine/src/strategy_engine/backtest/dataset.py:17-19 | two decimals that are not negative print alike exactly when they are equal as numbers |
| DecimalText.ReadsExactly | apps/strategy-engine/src/strategy_engine/backtest/dataset.py:22-34 | a decimal is accepted exactly when its sign is not negative, its adjusted exponent is at most 17 and its exponent at least -10, and is read as the same number; so -0 and 0E+20 are refused though they equal zero |
| DecimalText.RoundTrips | apps/strategy-engine/src/strategy_engine/backtest/dataset.py:17-34 | whatever is accepted prints to a text that is accepted and read as the same number |
| DecimalText.ComputePreimage | apps/strategy-engine/src/strategy_engine/backtest/dataset.py:162-170 | the loop that appends and joins lines computes the fingerprint's text |
| DecimalText.PreimageExact | apps/strategy-engine/src/strategy_engine/backtest/dataset.py:162-170 | two fingerprint texts are equal exactly when the bars agree up to decimal scale and, unless there are none, the instruments agree |
| FingerprintLaws.PreimageReads | apps/strategy-engine/src/strategy_engine/backtest/dataset.py:162-170 | the text cut at its newlines is the header and one line for each bar, and a line cut at its bars is instrument, interval, instant, the four prices in order, volume and open interest, each read as its own number |
| Patch.ApplyProposedDiff | scripts/research/verify_phase1446c.py:105-130 | the loop over patch lines equals the recursive reading of the patch, error by error |
| Patch.AppliesAsScripted | scripts/research/verify_phase1446c.py:105-130 | the diff of a script whose hunks fit and have an old side, or stand at the start, yields exactly the scripted text |
| Patch.AppliesExactlyWhenHunksLand | scripts/research/verify_phase1446c.py:113-119 | for hunks that fit and lie apart, the diff yields the scripted text exactly when each has an old side, stands at the start, or inserts copies of the line before it |
| Patch.InsertionMisplaced | scripts/research/verify_phase1446c.py:116 | a hunk that only inserts goes in one line too early |
| Patch.PatchingReverses | scripts/research/verify_phase1446c.py:105-130 | applying a diff of two-sided hunks and then its reverse restores the original |
| Patch.LengthChanges | scripts/research/verify_phase1446c.py:105-130 | a script changes the number of lines by its insertions less its deletions |
| PatchLaws.AcceptedExactly | scripts/research/verify_phase1446c.py:105-130 | the diff of a script is accepted exactly when its hunks land in order, each on lines that are its old side; otherwise it is refused for its order or its context |
| PatchHeaders.HeadersExactly | scripts/research/verify_phase1446c.py:113-119 | a line carries a number exactly when it is a hunk header, piece by piece, whose first number it is |

## Left out

- Rounding to 40 digits in the five-minute engines and the paper simulator: money is `real`, so equalities such as cash conservation hold exactly here and up to rounding there. The one-minute engine and the tariff trap inexact results, so `real` is faithful to them; the resulting ARITHMETIC_FAILURE is not modelled.
- DrawdownWitness.HarshTariffBreaks: its days take any real amounts, while the program's amounts have at most ten decimals and lie below 10^18; where a tariff's days need finer amounts, such as a slope barely above one at a tiny brokerage cap, the equivalences are those of the model. `DrawdownWitness.WholeAmountsSuffice` is a failure in whole amounts.
- Strategies.LowerBand: the band test compares squares, so no square root is taken; it is the program's test for any exact root of the variance.
- Executor: identity fields of results (hashes, symbol, synthetic flag) are not carried; the ISO texts of decisions and refusals are their instants and numbers.
- Executor.Executed: definitions vary in stop, target and minimum volume only, so the refusal UNRECOGNIZED_DEFINITION_VERSION of a definition changed in anything else is not modelled; a definition of the model always passes that check.
- Audit.FinalHashDeterminesLog: hashes are functions without collisions among the rows compared; SHA-256 itself is not modelled. Rows with missing or ill-typed columns are one `Malformed` case that replay refuses; callers never pass the log's own columns.
- PaperRun.Simulate: the admission checks are a list of refusals passed in, and its JSON publication is not modelled; distinct candles of the series are taken to have distinct keys. Amounts and instants in rows are numbers, and the rejection of an entry the execution refused is its reason without its instant.
- Backtest: metrics shown in per cent and the open interest of bars are left out; a trading day has one session, as validation requires of every date in range, and a callback is any function of the decision it is shown.
- Markets.EngineDay: keeps the first session of a day. The program checks its policy against every session and refuses runs whose later sessions do not fit, which the model accepts.
- Corpora.ValidateShard: identifiers, provenance order and the content and calendar fingerprints are not checked; a dataset is taken to carry the fingerprint of its own bars.
- JobsSafety.HistorySafe: a crash stops a process between two file-system steps or in the middle of a write; loss of a directory entry on power failure is not modelled. The evaluation is an arbitrary function of its arguments.
- JobsRun.KeysDistinct: symbols are taken to contain no brace, as none of the frozen universe does; the safety results do not need it.
- The export of results to CSV and JSON lines, and the family, dependency and universe files: input and output around checks that one branch settles.
- DecimalText: texts of instants and instruments are strings without bar or newline; negative decimals and other types are refused, as in the program.
- CanonicalPolicy: the payload's JSON bytes and its version check are not modelled.
- Patch: splitting a text into lines and joining them is not modelled, and hunk numbers use ASCII digits only.
- The qualification statistics, the acquisition harness, process monitors and the other phase scripts: floating-point tests, foreign interfaces and constant checks.
