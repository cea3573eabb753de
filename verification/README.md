# AlphaCouncil, modelled and proved in Dafny

AlphaCouncil is a paper-trading pipeline: it discovers candidates (M2), lets a committee of agents
vote (M3), sizes the risk (M4), plans an instrument (M5), authorizes and executes an order (M6),
monitors the position (M7) and evaluates the closed trade (M8). The agents are language models; every
layer around them is deterministic. This project models those layers and proves what they promise.

`dafny verify dfyconfig.toml` checks everything. No part of the original program is run.

## What is modelled

| files | component | modelled as |
|---|---|---|
| ExecutionKeys, ExecutionStore, ExecutionProtocol, ExecutionSafety, ExecutionRecovery, OrderTracking | idempotent execution against a broker that may lose replies, with a process that may die between any two durable steps | a transition system over a durable table and a broker log; the service, store and broker are classes whose methods are proved to take exactly those steps |
| RiskConstitution, RiskRules, RiskProperties, RiskExposure, RiskLimits | risk rules, budget and decision | methods over a checks list proved against functions of the context |
| EquityPlanning, ExecutionGate, SizingChain | position planning, limit price, validators, authorization, and the chain end to end | functions; the validators and the authorizer as methods |
| CandidateRanking, Diversification, Discovery | ranking, category cap, the discovery stages | methods proved against a closed form of the greedy choice |
| Calibration | calibration buckets, Brier score, ECE | methods and sums over predictions |
| Committee | weighted vote | accumulation loops proved against a tally |
| PositionMetrics, ExitRules, PositionMonitor, ExitPlanning | watermarks, exit rules, monitoring passes, exit plans and their authorization | a store class, passes as methods, runs as lists of operations |
| TradeRecords, TradingMemory | save and load of trade records, repeated evaluation, win and loss counts | a store class, runs as lists of evaluations |
| OptionSelection, OptionLimits, OptionEntry | option filters and sizing, and the chain from sizing to the gate | one filter loop, functions for the rules and the chain |

Decimals are exact reals; floors, truncations and tick rounding are written out where the program
has them. Each SQLite table is a map or a list of rows with its primary key and UNIQUE constraint,
and each transaction is one atomic step. Clocks, market data, the broker's behaviour and the
outcomes of lookups are parameters.

## Where the code and its documentation or intent differ

Each of these is proved about the code as written.

- The repository's `README.md:88` shows an entry of 8 shares at $531.25 as AUTHORIZED under an adjusted
  budget of $850. The gate compares the order's full notional with the amount at risk, so it is denied
  (`SizingChain.DocumentedEntryDenied`). In general an entry planned at no less than half the price its
  risk was measured at, under a deviation limit of at most 20% (0.5% as configured), is authorized exactly
  when its quote is so small that its limit rounds to zero (`SizingChain.EntryAuthorizedIff`;
  `EntryAuthorizedExactly` and `FractionalAuthorizedIff` for any prices and limits). No exit that a
  monitoring pass decides is authorized on a quote with a bid above 0.00005
  (`ExitPlanning.NoDecidedExitAuthorized`).
- An option order is priced by the stock: the execution planner fetches the quote of the plan's symbol, which
  is the underlying's, and multiplies its mid by contracts and multiplier. So an option is authorized exactly
  when its contracts would fit the budget at the price of the stock, and where the budget and not the cap
  chose their number only a stock that costs less than twice its option passes
  (`OptionEntry.OptionEntryAuthorizedIff`, `PricedByTheUnderlying`).
- A recovery pass stores a status as the broker's client prints it, and a row leaves the queue only for one of
  four bare words; what the client prints is not part of this model, but any text with a dot keeps its row
  selected by every later pass (`ExecutionRecovery.DottedTextsStayActive`).
- The kill switch turns every position a pass decides on into an immediate exit, and the same switch makes
  the gate deny that exit (`ExitPlanning.KillSwitchExitDenied`).
- Entries round halves of a tick up, exits to even (`ExitPlanning.TicksDifferIff`).
- After a lost reply, the next `execute` finds the order at the broker. For a key that is its own client
  order id it tries to adopt the order under a second primary key with the same UNIQUE key, and aborts, as
  does every later call (`ExecutionRecovery.LostReplyBlocksExecute`; the state is reached,
  `StuckIsReached`). Only reconciliation repairs the row: a pass in the window, or `reconcile_specific` for
  this record. A key that is not its own client order id, such as one whose plan prefix ends in "ac", is
  adopted instead, unless another row has that id as its plan id (`LostReplyAbortsIff`).
- The one-hour window of the pending query compares texts of two formats and is decided by the UTC
  dates alone (`ExecutionStore.WindowComparesDates`). A lost order of a key that is its own client order
  id, once its row has left the window, is not recovered by any later run of calls and passes
  (`ExecutionRecovery.LostForever`; reconciling that very record by hand, or writing a status to it, is
  outside the theorem).
- A comment places the committee's normalized stance between -1 and 1; it lies between -2 and 2. The
  disagreement penalty scales the score towards zero, the short end, so a committee without any lean is
  proposed short under high disagreement (`Committee.NeutralIsShortUnderHighDisagreement`).
- Zero numbers are stored as NULL, so a trade that broke even is not complete after loading and the
  summary's break-even count is always zero (`TradeRecords.CompleteAfterLoading`,
  `TradingMemory.SummaryNeverBreaksEven`).
- The maximum-loss rule compares the absolute stored profit with the stored notional, so on a position
  marked to market it never fires on a losing short position and does fire on a winning one whose price has
  halved (`ExitRules.MaxLossIsHalvedPrice`). The program never marks a stored position to market: nothing
  calls the updates of prices, watermarks or stops, and over any run of passes a row keeps everything but
  its status. The rule therefore decides by the row as it was stored, and a row stored without marks never
  fires the trailing stop (`PositionMonitor.RunWritesStatuses`, `StoredMarksDecide`).
- Entry prices, strikes and multipliers are not validated. One confirmed row with a zero entry price and any
  other market price makes a whole pass raise after it has set rows aside (`PositionMonitor.MonitorOnce`,
  `RaisesIff`); a call with a zero strike, or a contract with a zero premium that gets as far as the
  affordability filter, makes the option filters raise (`OptionSelection.ApplyOptionFilters`).
- The exit planner clamps to the broker's quantity but does not look at its side
  (`ExitPlanning.PlannedExitReducesIff`, `SideFlipEnlarges`).

## Model

| member | source | states |
|---|---|---|
| `ExecutionKeys.KeyTextRoundTrip` | backend/app/execution/models.py:296-314 | parsing the text alone gives back the 8-character plan prefix, symbol, side, quantity and 8-character version, for every plan id of at least 8 characters, dash-free symbol, printed Decimal and any version |
| `ExecutionKeys.KeyTextsEqualIff` | backend/app/execution/models.py:307-314 | for any two keys of plan ids of at least 8 characters and dash-free symbols: the texts are equal if and only if plan prefix, symbol and side agree and quantity and version read the same together |
| `ExecutionKeys.KeyTextInjective` | backend/app/execution/models.py:296-314 | the key determines its parts: for plan ids of at least 8 characters, dash-free symbols, quantities as a Decimal prints and any versions, two texts are equal if and only if all five parts agree |
| `ExecutionKeys.ClientIdIsKey` | backend/app/execution/models.py:316-326 | the client order id equals the key text if and only if the key has at most 64 characters and no inner "ac-" that the prefix removal would delete |
| `ExecutionKeys.StableKeyAdoption` | backend/app/execution/idempotency.py:73-89 | for such keys the row filed on adoption lies under a plan id that no write-ahead row uses |
| `ExecutionKeys.PrintedKeysAreStable` | backend/app/execution/models.py:307-326 | every printed key of dash-free, c-free parts is stable in that sense, so the protocol theorems apply to it |
| `ExecutionStore.ExecutionStore.Upsert` | backend/app/execution/store.py:73-126 | insert or replace by primary key keeping the creation time; refused, with nothing changed, exactly when another row has the idempotency key |
| `ExecutionStore.ExecutionStore.UpdateProviderInfo` | backend/app/execution/store.py:177-199 | records order id, status and times in the one row, if it exists |
| `ExecutionStore.ExecutionStore.UpdateStatus` | backend/app/execution/store.py:201-213 | changes only the row's status and update time |
| `ExecutionStore.ExecutionStore.GetByIdempotencyKey` | backend/app/execution/store.py:128-135 | finds the unique row of a key, or none |
| `ExecutionStore.PendingLifecycle` | backend/app/execution/store.py:155-164 | a row written without an order id is found as pending exactly until an hour after the next midnight; a new status opens that window anew; recording an order id ends it at once |
| `ExecutionStore.ActiveLifecycle` | backend/app/execution/store.py:166-175 | a recorded row is active exactly while its last status is not terminal, and never active and pending at once |
| `ExecutionStore.WindowComparesDates` | backend/app/execution/store.py:155-164 | the text comparison of the pending query is decided by the calendar dates alone: an ISO text and an SQLite text of one date always compare the same way |
| `ExecutionStore.WindowContainsTheHour` | backend/app/execution/store.py:155-164 | so the window contains the intended hour and ends an hour after the next midnight, up to a day later |
| `ExecutionStore.TextsAreOrdered` | backend/app/execution/store.py:155-164 | the text order behind that comparison is total and strict |
| `ExecutionProtocol.Broker.GetOrderByClientId` | backend/app/execution/gateway.py:235-248 | first order with the client order id, not found, or an exception, as the lookup's fate says |
| `ExecutionProtocol.Broker.Submit` | backend/app/execution/gateway.py:158-191 | appends the order unless nothing was sent; the id is returned only when the reply arrives |
| `ExecutionProtocol.ExecutionService.Execute` | backend/app/execution/service.py:94-168 | one call, crash points included, moves table and broker exactly as the step function says, and keeps idempotency keys unique |
| `ExecutionProtocol.ExecutionService.AdoptExistingOrder` | backend/app/execution/idempotency.py:73-89 | files the broker's order under its own plan id, or raises on the UNIQUE constraint and changes nothing |
| `ExecutionProtocol.ExecutionService.SubmitAndTrack` | backend/app/execution/service.py:170-260 | write-ahead, submit, record; state after a crash between any two of them |
| `ExecutionProtocol.ExecutionService.ReconcilePendingExecutions` | backend/app/execution/reconciliation.py:29-46 | a pass rewrites exactly the selected rows it reached and never the broker; it reaches all of them if it is not cut short |
| `ExecutionProtocol.ExecutionService.ReconcileRecord` | backend/app/execution/reconciliation.py:48-89 | a record gets the order found by id, else by client order id, else the unknown status |
| `ExecutionSafety.DuplicateExactlyAfterFalseNone` | backend/app/execution/service.py:129-168 | a call makes the broker hold a duplicate client order id if and only if it creates an order after a lookup wrongly answered "not found" |
| `ExecutionSafety.AtMostOneOrder` | backend/app/execution/service.py:129-168 | over every run of calls with crashes, lost replies, failed lookups, recovery passes, tracking and broker moves, no client order id has two orders |
| `ExecutionSafety.CoherentStep` | backend/app/execution/service.py:170-225 | each step keeps: keys unique, every order has a durable row, every recorded order id names an order of that row's client order id; rows, creation times and recorded ids are never lost |
| `ExecutionSafety.CoherentRun` | backend/app/execution/store.py:73-126 | the same over whole runs from any coherent state, including that a retry's upsert never erases a recorded order id |
| `ExecutionSafety.ReachableIsCoherent` | backend/app/execution/store.py:47-71 | every state reachable from the empty table and broker is coherent |
| `ExecutionRecovery.PassRepairsIffInWindow` | backend/app/execution/reconciliation.py:48-89 | a pass with working lookups records a lost order's id if and only if its row is in the window, and leaves the broker alone |
| `ExecutionRecovery.LostExactlyWithoutReply` | backend/app/execution/service.py:181-260 | from any coherent state, a call that creates an order loses it if and only if the process died before recording, the reply was lost, or recording failed; the row it leaves is its own, at its time |
| `ExecutionRecovery.RecordedIsAdopted` | backend/app/execution/service.py:129-141 | once an order id is recorded, every later call for the key adopts it and changes nothing, whatever the lookups answer |
| `ExecutionRecovery.RecoveryThenAdoption` | backend/app/execution/reconciliation.py:29-89 | a call whose reply is lost, then a pass in the window that reaches its row, then the next call adopts exactly the order the first call created |
| `ExecutionRecovery.SecondPassOnlyTouches` | backend/app/execution/reconciliation.py:29-89 | a second full pass changes nothing but update times |
| `ExecutionRecovery.PassRecordsTheBroker` | backend/app/execution/reconciliation.py:48-83 | a pass leaves every row it selected and reached with the id, status and submission time of its order as the broker has them, if a lookup finds the order, and otherwise with the unknown status and nothing else changed; an id recorded before is kept |
| `ExecutionRecovery.DoneOrdersLeaveTheQueue` | backend/app/execution/store.py:155-175 | after such a pass the row is active if and only if the broker does not call the order filled, canceled, expired or rejected, and otherwise no later pass selects it |
| `ExecutionRecovery.DottedTextsStayActive` | backend/app/execution/store.py:166-175 | a status whose text is not one of the four bare words, as a dotted name, keeps the row selected by every later pass |
| `ExecutionRecovery.CallRecordsTheBroker` | backend/app/execution/service.py:170-260 | a call that submits or adopts an order records it as the broker has it; one whose submission fails records that, and no id |
| `ExecutionRecovery.CallOutcomes` | backend/app/execution/service.py:94-168 | denied iff not authorized, dry iff nothing is recorded or found and a dry run was asked for, raised whenever the lookup fails; these three change nothing, and a dry run never reaches the broker |
| `ExecutionRecovery.FailedPassStaysRepairable` | backend/app/execution/store.py:201-213 | a pass whose lookups fail leaves the row pending with a fresh time, and a later pass repairs it |
| `ExecutionRecovery.AdoptionAbortsIff` | backend/app/execution/idempotency.py:73-89 | adopting inside a call aborts on the UNIQUE constraint if and only if some row's plan id is the client order id, and otherwise adopts the order the lookup finds |
| `ExecutionRecovery.LostReplyBlocksExecute` | backend/app/execution/service.py:143-148 | after a call whose reply is lost, for a key that is its own client order id, every repeated call raises (or dies) and changes nothing: only reconciliation can repair the row |
| `ExecutionRecovery.LostReplyAbortsIff` | backend/app/execution/idempotency.py:73-89 | after any call whose reply is lost, the next one with a working lookup aborts if and only if the key is its own client order id or another row has that id as its plan id; otherwise it adopts the very order the first call created |
| `ExecutionRecovery.RetrySubmits` | backend/app/execution/service.py:170-225 | a submission that created nothing is repeated by the next call, which records the new order |
| `ExecutionRecovery.RecordedKeyNeverResubmits` | backend/app/execution/service.py:135-141 | over any run, even with lookups that lie, a key whose order id is recorded is never submitted again |
| `ExecutionRecovery.LostForever` | backend/app/execution/store.py:155-164 | from such a call on, once its row has left the window, the order stays lost over every later run of calls and passes, and every call for its key aborts |
| `ExecutionRecovery.StuckIsReached` | backend/app/execution/service.py:181-260 | the state is reached from the empty store and broker by one lost reply, for a printed key |
| `OrderTracking.TrackOrder` | backend/app/execution/tracking.py:32-131 | at most ceil(timeout/interval) polls even if all fail; the status is the last one seen; completed if and only if a terminal one was seen; the table holds exactly the status changes |
| `OrderTracking.PollBound` | backend/app/execution/tracking.py:45-83 | the bound on the number of polls for a clock that advances by each sleep |
| `OrderTracking.LastSeenIs` | backend/app/execution/tracking.py:45-83 | the status reported is that of the latest poll that saw one |
| `OrderTracking.TableFollowsStatus` | backend/app/execution/tracking.py:60-68 | writing changes only is enough: the row always shows the text of the last status seen |
| `OrderTracking.TrackingKeepsCoherence` | backend/app/execution/tracking.py:32-86 | the tracker's writes keep the protocol's coherence and lose nothing durable |
| `RiskRules.EvaluateAll` | backend/app/risk/rules.py:31-96 | the hard gates then, if none fails, the soft limits, in order; a hard failure occurs if and only if a listed condition is violated, and then no soft limit is reported |
| `RiskRules.ApplyReductions` | backend/app/risk/rules.py:541-570 | the loop over the checks yields the accumulated reductions |
| `RiskRules.ComputeBudget` | backend/app/risk/rules.py:520-626 | the budget of the accumulated reductions; no division by zero for any price or ATR |
| `RiskRules.Evaluate` | backend/app/risk/service.py:44-74 | the decision and budget of rules, sizing and decision together; RiskProperties and RiskExposure say what they amount to |
| `RiskProperties.AccumulatedIsContextReductions` | backend/app/risk/rules.py:541-570 | after the whole list of checks: one factor per rule, and for exposure the strictest of gross, net and position count |
| `RiskProperties.FactorRange` | backend/app/risk/rules.py:298-489 | every reduction factor lies in [0.5, 1) |
| `RiskProperties.AdjustedBounds` | backend/app/risk/rules.py:572-576 | the reductions together leave at least 4.6875% and at most all of the base risk |
| `RiskProperties.AdjustedFull` | backend/app/risk/rules.py:572-576 | they leave all of it if and only if nothing was reduced |
| `RiskProperties.BudgetBounds` | backend/app/risk/models.py:298-311 | 0 <= adjusted <= base, shares times price within the ceiling, shares times stop within the adjusted budget, for every price and ATR: the budget's validators cannot fail |
| `RiskProperties.EvaluationMeans` | backend/app/risk/rules.py:649-712 | decision and budget in terms of gates, soft limits and shares, both directions |
| `RiskProperties.DecisionMatchesBudget` | backend/app/risk/rules.py:649-712 | with open gates and shares: APPROVED iff adjusted = base, REDUCED iff 0.046875 base <= adjusted < base |
| `RiskProperties.EvaluationBounds` | backend/app/risk/rules.py:576-611 | every accepted evaluation: adjusted <= 1% of equity, position <= 10% of equity, loss at the stop <= adjusted budget |
| `RiskProperties.UsedStopRange` | backend/app/risk/rules.py:578-599 | the stop used for sizing lies between 2% and 10% of the price |
| `RiskProperties.RiskMonotone` | backend/app/risk/rules.py:31-96 | a context no better in confidence, volatility, volume, concentration, exposure, position count, daily return, drawdown and kill switch never gets a better decision, a larger budget or more shares |
| `RiskExposure.NetIsDifference` | backend/app/risk/models.py:143-161 | net exposure is the longs' worth less the shorts', gross exposure their sum |
| `RiskExposure.ExposuresAdd` | backend/app/risk/models.py:143-151 | the exposures of two books together are the sums |
| `RiskExposure.ReverseNegatesNet` | backend/app/risk/models.py:98-100 | turning every side around negates the net and keeps the gross |
| `RiskExposure.OneSidedNetIsGross` | backend/app/risk/models.py:143-151 | a book on one side is exposed by all of it |
| `RiskExposure.NetWithinGross` | backend/app/risk/models.py:143-151 | net exposure never exceeds gross exposure |
| `RiskExposure.NetRuleIff` | backend/app/risk/rules.py:438-470 | the net rule reduces if and only if the worth of longs and shorts differs by more than 40% of equity |
| `RiskExposure.HedgeLeavesNetRule` | backend/app/risk/rules.py:438-470 | adding a long and an equal short leaves the net rule as it was |
| `RiskExposure.HedgedBookHasNoNetReason` | backend/app/risk/rules.py:649-712 | a book with as much short as long passes the net rule, and its evaluation never names net exposure as the reason |
| `RiskLimits.GatesOpenIff` | backend/app/risk/rules.py:102-293 | all hard gates are open if and only if the thesis is usable with confidence of at least 60%, price and quote are usable with a spread of at most 5%, the switch is off, and losses are within 3% of the session's and 10% of the highest equity |
| `RiskLimits.PositionInIsFirst` | backend/app/risk/models.py:164-168 | the position looked up for a symbol is the first in it, or none |
| `RiskLimits.OwnFactors` | backend/app/risk/rules.py:298-375 | when the confidence, volatility and volume rules reduce, and what they leave, in numbers |
| `RiskLimits.BookFactors` | backend/app/risk/rules.py:376-489 | when the concentration, gross, net and position-count rules reduce, and what they leave, in terms of equity |
| `RiskLimits.NoEquityNoBookRules` | backend/app/risk/rules.py:376-466 | without equity the concentration and exposure rules pass |
| `RiskLimits.RejectionReason` | backend/app/risk/rules.py:649-680 | a rejection by a gate names the first closed one, in the order of evaluation |
| `RiskLimits.ReductionReason` | backend/app/risk/rules.py:690-704 | a reduction names the first exceeded soft limit, in the order of evaluation |
| `RiskLimits.StopIsTwiceTheRange` | backend/app/risk/rules.py:578-586 | the stop is twice the ATR, clamped to 2% and 10% of the price |
| `RiskLimits.AmountAtRisk` | backend/app/risk/rules.py:541-590 | an accepted evaluation risks 1% of equity times the five factors, under a ceiling of 10% of equity |
| `RiskLimits.SharesAreMaximal` | backend/app/risk/rules.py:592-611 | the shares are the most that fit: worth at most 10% of equity and losing at the stop at most the amount at risk, and one more would break one of the two |
| `RiskLimits.AcceptedIff` | backend/app/risk/rules.py:649-712 | an evaluation is accepted if and only if all gates are open, there is equity, and one share is worth at most 10% of it and loses at the stop at most the risk that is left |
| `RiskLimits.OutcomeReasons` | backend/app/risk/rules.py:676-712 | approval comes with no reason; open gates without a share are a calculation failure with a budget of zero |
| `EquityPlanning.PlanWithinCeilings` | backend/app/instruments/stock.py:49-90 | for every budget, fractional or whole: notional = quantity x price <= ceiling, loss at stop <= budget; the repair branch is unreachable in exact arithmetic |
| `EquityPlanning.PlanExists` | backend/app/instruments/stock.py:34-75 | a plan exists if and only if price and direction are usable and, for whole shares, one share is affordable; it is long iff the thesis is bullish, short iff it is bearish |
| `EquityPlanning.PlanWorth` | backend/app/instruments/stock.py:56-75 | a plan is worth at least half of what budget, stop and ceiling allow, and all of it when fractions can be bought |
| `EquityPlanning.PlanIsLarge` | backend/app/instruments/stock.py:56-75 | planned at no less than half the price its risk was measured at, it is worth at least 2.5 times the risk budget |
| `ExecutionGate.TickError` | backend/app/execution/planner.py:178-184 | rounding moves a price by at most half its tick, and to zero if and only if it is under half the small tick |
| `ExecutionGate.TickStable` | backend/app/execution/planner.py:178-184 | the result is on the grid of its own size and rounding it again changes nothing |
| `ExecutionGate.TickMonotone` | backend/app/execution/planner.py:178-184 | rounding keeps order, also across one dollar |
| `ExecutionGate.TickKeeps` | backend/app/execution/planner.py:161-184 | a limit that does not vanish keeps two thirds of the mid |
| `ExecutionGate.BuiltIff` | backend/app/execution/planner.py:88-184 | a plan is built if and only if market, quote, spread, tradability, shortability and price deviation allow it and there is an instrument; its mid lies inside the quote and its limit within half a cent of it |
| `ExecutionGate.RefusalReason` | backend/app/execution/planner.py:88-160 | each reason for refusing a plan with the exact condition on market, quote, asset and prices under which it is given |
| `ExecutionGate.ValidateExecutionConfig` | backend/app/execution/validation.py:132-148 | failures in order; none iff execution and paper execution are on, mode is paper and the live flag off |
| `ExecutionGate.ValidateUpstreamGates` | backend/app/execution/validation.py:115-130 | failures in order; none iff not NO_TRADE and not risk-rejected |
| `ExecutionGate.ValidateM4Authority` | backend/app/execution/validation.py:77-113 | failures in order; none iff not rejected, budget present and kill switch not active |
| `ExecutionGate.ValidateExecutionPlan` | backend/app/execution/validation.py:27-75 | failures in order; none iff unexpired, 0 < quantity <= planned, notional within ceiling and budget, option loss within budget |
| `ExecutionGate.Authorize` | backend/app/execution/authorization.py:34-81 | AUTHORIZED if and only if every gate holds; otherwise the reason is the first failing gate's |
| `ExecutionGate.DenialReason` | backend/app/execution/authorization.py:34-81 | a denial names the first gate that does not hold, all gates spelled out in order |
| `ExecutionGate.AuthorizationSound` | backend/app/execution/planner.py:202-289 | any authorized built plan is a paper order of exactly the planned positive number of shares or contracts, at the rounded mid near the reference price, with the switch off and unexpired; shares x limit, or contracts x multiplier x limit, are within min(budget, ceiling), an option's loss is within the budget, and it buys iff the plan is long or an option |
| `ExecutionGate.BuiltCost` | backend/app/execution/planner.py:202-240 | the notional of a built order is what the planned shares, or contracts x multiplier, cost at the rounded mid |
| `ExecutionGate.OptionAuthorizedIff` | backend/app/execution/validation.py:27-75 | a built option order is authorized if and only if the gates hold, there are contracts, contracts x multiplier x rounded mid is within budget and ceiling, and the maximum loss within the budget |
| `OptionEntry.SizedAtTheAsk` | backend/app/options/sizing.py:36-56 | the sized contracts cost at the option's ask exactly their maximum loss, within the budget; one more would exceed budget or cap |
| `OptionEntry.OptionEntryAuthorizedIff` | backend/app/execution/planner.py:42-87 | an accepted, sized and built option entry is authorized if and only if its contracts x multiplier, at the underlying's rounded mid, are within the risk budget |
| `OptionEntry.PricedByTheUnderlying` | backend/app/instruments/selector.py:351-381 | a limit up to the option's ask is always authorized; where the budget chose the number of contracts, only a stock cheaper than twice its option is |
| `SizingChain.EntryAmounts` | backend/app/risk/rules.py:576-611 | an accepted risk evaluation and its planned position, at any prices: 10 x budget <= ceiling, and the position is worth between half and all of what is allowed, never more than the ceiling |
| `SizingChain.NearAmounts` | backend/app/risk/rules.py:576-611 | planned at no less than half the measured price and under a deviation limit of at most 20%, the position is worth at least 2.5 times the risk budget |
| `SizingChain.EntryOrder` | backend/app/execution/planner.py:202-289 | the built order buys iff the thesis is bullish and sells iff it is bearish, asks for the planned quantity at the rounded mid, within the deviation limit, with the evaluation's budget and ceiling |
| `SizingChain.EntryAuthorizedExactly` | backend/app/execution/validation.py:57-63 | an accepted, planned and built entry, at any prices and any deviation limit, is authorized if and only if quantity x limit is within the risk budget |
| `SizingChain.FractionalAuthorizedIff` | backend/app/execution/validation.py:57-63 | in prices, when fractions can be bought: if and only if limit <= stop amount per unit, or ceiling x limit <= budget x planned price |
| `SizingChain.EntryAuthorizedIff` | backend/app/execution/validation.py:57-63 | planned at no less than half the measured price and built under a deviation limit of at most 20% (0.5% as configured), fractional or whole: if and only if the mid is under 0.00005, where the limit rounds to zero |
| `SizingChain.DocumentedEntryDenied` | backend/app/execution/validation.py:61-63 | the example the repository's README shows as AUTHORIZED (8 shares at 531.25, budget 850) is denied with RISK_BUDGET_EXCEEDED |
| `CandidateRanking.RankedSorts` | backend/app/discovery/scoring.py:108-141 | ranking sorts by score then symbol and loses or invents nothing |
| `CandidateRanking.RankedIdentity` | backend/app/discovery/scoring.py:108-141 | ranking a ranked list changes nothing |
| `CandidateRanking.RankingIsDeterministic` | backend/app/discovery/scoring.py:108-141 | with distinct symbols the ranking does not depend on the order of screening |
| `Diversification.Diversify` | backend/app/discovery/diversification.py:38-53 | the loop with a count dictionary keeps exactly the candidates with fewer than the cap of better ones of their category, min(count, cap) per category |
| `Diversification.CappedCounts` | backend/app/discovery/diversification.py:38-53 | each category keeps exactly min(its count, the cap) |
| `Diversification.CappedIsLongest` | backend/app/discovery/diversification.py:38-53 | no choice within the cap has more members |
| `Diversification.CappedDominates` | backend/app/discovery/diversification.py:38-53 | the i-th best kept is at least as good as the i-th best of any choice within the cap |
| `Diversification.CappedIdentity` | backend/app/discovery/diversification.py:100-114 | a list within the cap is left alone |
| `Discovery.DeepListFeasible` | backend/app/discovery/service.py:92-105 | the deep-analysis list respects both limits and holds only viable candidates in ranked order |
| `Discovery.RankedViableIff` | backend/app/discovery/service.py:79-91 | what is ranked is exactly what was eligible and scores at least 30 |
| `Discovery.SurvivorsIff` | backend/app/discovery/service.py:107-127 | survivors are the candidates whose deep analysis succeeded, reported failures the others |
| `Discovery.DeepListOptimal` | backend/app/discovery/service.py:92-105 | against every choice of viable candidates within cap and k it is position-wise at least as good and has at least the total score |
| `Discovery.SurvivorsUnchanged` | backend/app/discovery/service.py:128-137 | whatever deep analyses fail, the final diversification and the final sort are the identity |
| `Discovery.Discover` | backend/app/discovery/service.py:79-151 | stages 3 to 9: the final list is the start of the surviving deep list, as long as requested, or as configured if nothing was requested; every deep candidate survives or is rejected |
| `Calibration.EceIsNetError` | backend/app/memory/analytics.py:131-140 | the weighted gaps add up to the ranges' absolute net errors per prediction |
| `Calibration.EceWithinBrier` | backend/app/memory/analytics.py:124-140 | for disjoint ranges 0 <= ECE and ECE squared <= Brier score; Brier <= 1 for confidences in [0,1] |
| `Calibration.OverlapBreaksBound` | backend/app/memory/analytics.py:75-101 | with a range listed twice the ECE reaches 2 while the Brier score is 1 |
| `Calibration.BrierZeroIff` | backend/app/memory/analytics.py:124-129 | the Brier score is zero if and only if every recorded confidence was 1 for what came true and 0 for what did not |
| `Calibration.DefaultRangesDisjoint` | backend/app/memory/models.py:681-687 | the default buckets are disjoint, the inclusive end at 1.0 included |
| `Calibration.CoversIff` | backend/app/memory/analytics.py:75-101 | a range ending at 1 holds both its ends, any other only its lower one |
| `Calibration.DisjointRangesCountOnce` | backend/app/memory/analytics.py:75-101 | disjoint buckets count every covered prediction exactly once |
| `Calibration.DefaultRangesCountConfident` | backend/app/memory/models.py:681-687 | the default bucket counts add up to the number of predictions of at least 0.50 |
| `Calibration.ComputeCalibration` | backend/app/memory/analytics.py:50-122 | missing confidences are dropped; below the sample minimum only the Brier score is reported; from it on buckets and ECE, with ECE squared <= Brier for disjoint buckets |
| `Committee.AggregateOpinions` | backend/app/committee/aggregation.py:66-196 | the loops compute score, confidence, verdict and no-trade reason of the tally |
| `Committee.OrderIrrelevant` | backend/app/committee/aggregation.py:84-196 | score, confidence, verdict and reason do not depend on the order of the agents |
| `Committee.AggregateRanges` | backend/app/committee/aggregation.py:147-173 | score in [0,100], confidence in [0,1]; the normalized stance lies in [-2,2] |
| `Committee.VerdictThresholds` | backend/app/committee/aggregation.py:159-196 | with a quorum: long iff n >= 1.2/p - 1, short iff n <= 0.8/p - 1, a reason iff no trade |
| `Committee.LeanNeeded` | backend/app/committee/aggregation.py:153-184 | the exact leans from which a long or a short is proposed, for each severity of disagreement |
| `Committee.NoTradeReasonIff` | backend/app/committee/aggregation.py:184-196 | insufficient analysis iff fewer than three opinions or 60% of the weight, high disagreement iff medium or high, low conviction iff otherwise confidence below one half |
| `Committee.CommonConfidence` | backend/app/committee/aggregation.py:164-173 | agents of one confidence make a committee of that confidence times the penalty |
| `Committee.NeutralIsShortUnderHighDisagreement` | backend/app/committee/aggregation.py:147-184 | a committee without any lean is proposed short exactly under HIGH disagreement |
| `Committee.NegationMirrors` | backend/app/committee/aggregation.py:133-184 | without penalty, negating every stance mirrors the score about 50 and swaps long and short |
| `Committee.StanceMonotone` | backend/app/committee/aggregation.py:133-162 | raising one agent's stance never lowers the score |
| `Committee.StanceWithoutPullIsIgnored` | backend/app/committee/aggregation.py:133-150 | the stance of an agent with zero confidence or zero role weight has no effect on any part of the result |
| `Committee.ConfidenceMovesTheScore` | backend/app/committee/aggregation.py:133-162 | raising the confidence of an agent above the mean stance never lowers the score, of one below it never raises it |
| `Committee.MeanWithinStances` | backend/app/committee/aggregation.py:147-150 | the normalized stance lies between the lowest and highest stance given; for a unanimous committee it is their common stance |
| `Committee.WeightGateNeverFires` | backend/app/committee/aggregation.py:90-131 | with default weights and distinct roles, three usable agents always weigh at least 0.70, so the 0.6 gate never rejects |
| `PositionMetrics.WatermarksAreExtremes` | backend/app/positions/metrics.py:166-186 | over any run of prices the watermarks are exactly its maximum and minimum |
| `PositionMetrics.ExcursionsCover` | backend/app/positions/metrics.py:134-164 | an update never shrinks MFE or MAE, and -MAE <= return <= MFE for both sides |
| `PositionMetrics.ExcursionsGrow` | backend/app/positions/metrics.py:134-164 | over a run MFE and MAE never decrease |
| `PositionMetrics.ReturnsWithinExcursions` | backend/app/positions/metrics.py:49-82 | the excursions bound the return at every price ever seen |
| `PositionMetrics.ExcursionsAttained` | backend/app/positions/metrics.py:134-164 | each excursion is zero or the gain or loss at some price of the run |
| `ExitRules.Evaluate` | backend/app/positions/metrics.py:206-341 | the reasons are exactly the rules that fire, each once; EXIT iff there is one; the urgency is the highest severity among them; a price at the stop or beyond exits with at least high urgency, a better one not for that reason; for any entry price unless the trailing rule divides by zero |
| `ExitRules.UrgencyMeans` | backend/app/positions/metrics.py:221-339 | immediate iff the kill switch or reconciliation is a reason, high iff not and stop or maximum loss is, none iff there is no reason |
| `ExitRules.StopFiresIff` | backend/app/positions/metrics.py:240-253 | a stop fires at the stop and at every worse price, and at no better one, on both sides |
| `ExitRules.TakeProfitIff` | backend/app/positions/metrics.py:301-306 | take profit fires from 10% above the entry of a long and 10% below that of a short position on |
| `ExitRules.TrailingIff` | backend/app/positions/metrics.py:280-299 | the trailing stop fires exactly between 5% above the entry and 3% below the best price of a long position; for a short one between 3% above the best price and 5% below the entry |
| `ExitRules.LongThesisIff` | backend/app/positions/metrics.py:273-339 | a long position is left after seven days, on a falling trend, on momentum below -5% and on volatility above 5% |
| `ExitRules.ShortMirrorsLong` | backend/app/positions/metrics.py:240-339 | with prices reflected about the entry and trend and momentum turned around, every rule but the trailing stop and the maximum loss treats a short position as it treats a long one |
| `ExitRules.MaxLossIsHalvedPrice` | backend/app/positions/metrics.py:255-265 | marked to market, the maximum-loss rule fires if and only if the price is at most half the entry, on both sides: for a short position that is a gain |
| `ExitRules.StopExcludesProfit` | backend/app/positions/metrics.py:240-311 | a stop at or behind the entry never fires together with a positive return or the trailing rule |
| `ExitRules.TrailingNeedsGain` | backend/app/positions/metrics.py:280-289 | a long trailing stop fires only when the best price is at least 1.05/0.97 of the entry |
| `PositionMonitor.PositionStore.GetOpenPositions` | backend/app/positions/store.py:204-211 | exactly the open, partially exited and exit-pending rows, in order |
| `PositionMonitor.StatusMovesOpenRows` | backend/app/positions/store.py:228-240 | writing a status takes the position out of the open rows or puts it there, as the status says, and moves no other |
| `PositionMonitor.UpsertKeepsIds` | backend/app/positions/store.py:97-143 | an upsert replaces the whole row of its id, status included, or appends it, and keeps ids distinct |
| `PositionMonitor.UpdatesAreLocal` | backend/app/positions/store.py:228-298 | every single-row update leaves all other rows alone and writes only what it is for |
| `PositionMonitor.ReconcileAll` | backend/app/positions/reconciliation.py:32-134 | one finding per open row: reconciled iff the broker holds its side and quantity |
| `PositionMonitor.AgreesIff` | backend/app/positions/reconciliation.py:60-134 | row and broker agree if and only if the broker's signed quantity is the row's, positive for a long; holding nothing counts as short |
| `PositionMonitor.ApplyReconciliation` | backend/app/positions/monitor.py:114-123 | sets aside exactly the rows found contradicted |
| `PositionMonitor.EvaluatePosition` | backend/app/positions/monitor.py:125-181 | no decision if and only if the evaluation divides by a zero entry price; otherwise target and remainder follow from the rules that fire: everything, or nothing |
| `PositionMonitor.RaisesIff` | backend/app/positions/metrics.py:77-164 | an evaluation raises if and only if the entry price is zero and the price is not, or a mark stands against it |
| `PositionMonitor.MonitorOnce` | backend/app/positions/monitor.py:84-112 | a pass sets aside exactly the open rows the broker contradicts and decides exactly the ones it confirms, unless one of those raises: then the rows stay set aside and nothing is decided |
| `PositionMonitor.RunWritesStatuses` | backend/app/positions/monitor.py:84-123 | over any run of passes and status updates every row keeps all it was stored with but its status |
| `PositionMonitor.StoredMarksDecide` | backend/app/positions/metrics.py:255-289 | so a decision after any such run gives maximum loss exactly when the row as first stored did, never without stored profit or loss, and the trailing stop never without stored marks |
| `PositionMonitor.DecisionMatchesBroker` | backend/app/positions/monitor.py:84-181 | target + remaining is the broker's quantity, and the reconciliation reason never occurs |
| `PositionMonitor.NeverEvaluatedAgain` | backend/app/positions/monitor.py:84-123 | over any run of passes, upserts, status and market-data updates a position that is not open, in particular one that needs reconciliation, is never decided on again unless a step writes an open status over it |
| `PositionMonitor.ReopenedIsEvaluatedIff` | backend/app/positions/store.py:97-143 | written anew it is decided on by the next pass if and only if it was written open and the broker confirms it |
| `PositionMonitor.ContradictedOnceMeansNeverAgain` | backend/app/positions/monitor.py:114-123 | one contradicted pass is enough for that, under the same condition |
| `ExitPlanning.ExitTickSign` | backend/app/positions/exit_planner.py:152-156 | the exit planner rounds halves to even, so its limit is zero or less if and only if the price is at most 0.00005 |
| `ExitPlanning.TicksDifferIff` | backend/app/positions/exit_planner.py:152-156 | entries and exits round a price to different limits exactly when it lies halfway above an even tick |
| `ExitPlanning.ExitLimitFollowsUrgency` | backend/app/positions/exit_planner.py:126-156 | an exit for a hard rule asks for the bid of a long or the ask of a short position, any other for the mid, to half a tick; a price that rounds to nothing is replaced by the price of the decision |
| `ExitPlanning.PlannedExitReducesIff` | backend/app/positions/exit_planner.py:68-79 | a planned exit never exceeds what the broker holds, nothing if it holds none of the symbol, and only reduces the position iff the broker holds the side that is closed or nothing is planned |
| `ExitPlanning.SideFlipEnlarges` | backend/app/positions/exit_planner.py:71-76 | a long row confirmed by the pass and short at planning: the planned exit doubles the short position |
| `ExitPlanning.DecidedExitFlattensIff` | backend/app/positions/exit_planner.py:107-115 | decided and planned on one broker snapshot an exit leaves exactly nothing, unless it sells an option held short |
| `ExitPlanning.FilledExitFlattensIff` | backend/app/positions/exit_planner.py:68-115 | the order the planner builds for it, once filled, does so: its side is the right one unless it sells an option held short |
| `ExitPlanning.ExitAuthorizedIff` | backend/app/positions/service.py:95-148 | an exit as the planner builds it is authorized if and only if configuration, kill switch and expiry allow it, its clamped quantity is positive and its chosen price is at most 0.00005: its budget is zero |
| `ExitPlanning.DecidedExitAuthorizedIff` | backend/app/positions/exit_planner.py:126-150 | for a decision of a pass: if and only if it is an EXIT of a position the broker still holds and the bid, ask or mid its urgency chooses is that small |
| `ExitPlanning.NoDecidedExitAuthorized` | backend/app/positions/service.py:86-148 | so no exit decided by a monitoring pass is authorized on a quote with a bid above 0.00005, whatever the broker holds by then |
| `ExitPlanning.KillSwitchExitDenied` | backend/app/execution/validation.py:104-111 | with the kill switch on every decision of a pass is an immediate exit, and the gate denies it under the same switch |
| `TradeRecords.CodesRoundTripIff` | backend/app/memory/store.py:376-383 | a code list survives saving and loading if and only if it is comma-free and not the single empty code |
| `TradeRecords.LoadSaveIs` | backend/app/memory/store.py:422-472 | load after save is the record with zero numbers turned absent, if and only if both code lists survive |
| `TradeRecords.SaveLoadSave` | backend/app/memory/store.py:268-386 | what is loaded is saved again unchanged |
| `TradeRecords.CompleteAfterLoading` | backend/app/memory/models.py:183-190 | a saved trade is complete iff its four required numbers are present and not zero: break-even trades drop out |
| `TradeRecords.LoadedNeverBreakEven` | backend/app/memory/analytics.py:531-549 | over rows read back from the store, wins + losses = trades and breakevens = 0 |
| `TradeRecords.OutcomesAreCounts` | backend/app/memory/analytics.py:531-534 | wins, losses and break-evens are the numbers of completed trades with a positive, negative and zero profit |
| `TradingMemory.UpsertedRows` | backend/app/memory/store.py:268-386 | re-reading a position gives the row just written with its first creation time, exactly one row of it remains, and no other position's row changes |
| `TradingMemory.TradingMemoryStore.GetTradeRecordByPositionId` | backend/app/memory/store.py:398-405 | the first row of the position, or none |
| `TradingMemory.EvaluateClosedPosition` | backend/app/memory/service.py:55-150 | writes all tables as the evaluation function says for a position that is closed or whose exit is pending; any other status writes nothing |
| `TradingMemory.StatusDecides` | backend/app/memory/evaluator.py:75-80 | a closed or exit-pending position is recorded, one of any other status changes nothing |
| `TradingMemory.ViolatesIff` | backend/app/memory/store.py:54-64 | a row is refused iff some row has its position under another trade id |
| `TradingMemory.CountOutcomes` | backend/app/memory/analytics.py:531-549 | counts trades, wins, losses and break-evens of the loaded records |
| `TradingMemory.RunAccounts` | backend/app/memory/service.py:82-139 | over any run of evaluations: one trade row per position once evaluated, with the first evaluation's id and creation time, and version 2n - 1 after n evaluations |
| `TradingMemory.TablesFollowRecords` | backend/app/memory/store.py:478-702 | over any run each evaluation table holds one row for a trade exactly when it was evaluated, with what the last evaluation computed |
| `TradingMemory.AgentsFollowRecords` | backend/app/memory/store.py:704-746 | over any run there is one record per trade and agent, exactly for the agents some evaluation reported, and it is the one last reported |
| `TradingMemory.NeverViolates` | backend/app/memory/store.py:54-64 | rows keyed by their position's own trade id never violate the UNIQUE position constraint |
| `TradingMemory.SummaryNeverBreaksEven` | backend/app/memory/analytics.py:531-549 | after any run of evaluations the summary's wins and losses make up all completed trades |
| `OptionSelection.Filter` | backend/app/options/filters.py:66-81 | each filter keeps in order what passes and counts the rest, unless an item makes it raise |
| `OptionSelection.StagesAreEligible` | backend/app/options/filters.py:221-247 | filtering stage by stage is filtering contract by contract |
| `OptionSelection.ApplyOptionFilters` | backend/app/options/filters.py:199-248 | eligible are exactly the snapshots of contracts passing all filters; total = five rejection counts + eligible + contracts in scope without a snapshot; no result if and only if an unexpired call has a zero strike or a premium of zero reaches the affordability filter |
| `OptionLimits.ScopeIff` | backend/app/options/filters.py:66-107 | a contract is in scope iff its days to expiry and its price relative to the strike lie in the configured ranges, ends included |
| `OptionLimits.DeltaIff` | backend/app/options/filters.py:109-133 | delta is compared without its sign, ends included; without one, greeks must not be required |
| `OptionLimits.LiquidIff` | backend/app/options/filters.py:135-165 | liquid iff the quote is uncrossed with both sizes and its spread is zero or within the limit; the zero-bid switch decides nothing |
| `OptionLimits.AffordableIff` | backend/app/options/filters.py:167-196 | affordable iff one contract at the ask is within the budget and the cap allows one; the filter raises iff there is a budget and the multiplier is zero |
| `OptionLimits.BreaksIff` | backend/app/options/filters.py:199-248 | which contracts make the filters raise, in strikes and multipliers |
| `OptionSelection.PlanIsMaximal` | backend/app/options/sizing.py:36-56 | a plan exists iff the premium is positive, one contract is affordable and the cap allows one; it fits the budget and one more contract would break budget or cap |
| `OptionSelection.EligibleIsSizable` | backend/app/options/filters.py:167-196 | whatever passes affordability gets a plan from the sizer with any cap of at least one |

## Left out

- Language-model agents, prompts, evidence, rebuttal text, API routes, web interface, credentials: no deterministic claim.
- `orchestration/service.py`, `market/indicators.py`, `discovery/signals.py`, `instruments/selector.py`, option symbol parsing: fixed tables, formulas or single branches, with no state and nothing that spans several operations.
- 28-digit Decimal rounding and float weights: exact reals throughout, so weights given to the committee are taken as already normalized.
- Wall clock: each operation takes one time, or a sequence of clock readings, as a parameter.
- Broker order ids: an id is the order's position in the broker's log; ids that name no order are not modelled.
- Delayed orders: a submission that raises without creating its order does not create it later.
- Concurrent calls of `execute`: runs are sequential, as the store's lock and the callers make them.
- Deliberately colliding keys: `ExecutionKeys` states when two keys print alike, the protocol takes keys as they come.
- Planning and authorization inside the execution protocol: one boolean there; they are modelled on their own in `ExecutionGate`, `SizingChain` and `ExitPlanning`.
- `execute_exit` after its authorization: it repeats the execution protocol with its own keys; its authorization is in `ExitPlanning`.
- `reconcile_specific` and `reconcile_position` by id appear as single-record steps; the status queries of services are not modelled.
- `track_order_async` and the result builders: the same loop, and values without a claim.
- `limiting_rule`, messages, rule names and the kept list of checks in risk and authorization results.
- Group concentration and correlation rules: placeholders that always pass, kept as two passing checks.
- The source's reference-price fallback chain: the planned price is a parameter.
- Directional balance and the computation of opportunity scores in discovery: scores are inputs.
- `CalibrationEngine._determine_insight`: a label for the mean gap. `SimilarityEngine`, regime, exit-reason and signal analytics.
- Committee evidence identifiers, participant lists, decision reasons and `determine_final_decision`.
- Option expiry and portfolio exit rules: placeholders in the program. The source's REDUCE decision is never produced by its rules.
- Payloads of the six evaluation tables and of agent records: opaque texts. Crashes between two upserts of one evaluation.
- EntryAuthorizedIff: speaks of entries planned near the measured price; for any prices see EntryAuthorizedExactly and FractionalAuthorizedIff, and for whole shares at any prices only the former.
- ExitAuthorizedIff: excludes positions of negative notional, because the program raises on building their risk budget.
- StanceMonotone: compares stances at one penalty; severity is an input and does not follow the stances.
