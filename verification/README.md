# Paper-trading kernel: verification model

This project models the deterministic paper-trading kernel of the engine and proves what its parts
promise each other. Every amount is an `int` counting units of 10^-12, every time an `int` counting
microseconds, as in the engine.

- **Fixed point** (`Fixed`): ceiling division, exact products, half-even averages, decimal text.
- **Risk** (`RiskAccount`, `RiskSizing`, `RiskTheorems`, `RiskEvaluator`, `RiskSession`, `RiskSafety`,
  `RiskRecheck`, `RiskExchange`, `RiskGate`): the account view, sizing by binary search, one evaluation, the
  session with its reservations, what later approvals take from earlier ones, and the session object.
  `RiskPortfolio`, `RiskAllowance`, `RiskReasons`, `RiskGuard` and `RiskTrail` say on portfolio, request and
  policies alone what is allowed, why, what may execute, and what a session records.
- **Paper ledger** (`LedgerModel` to `LedgerHistory`, `PaperLedger`): permits, books, lot search, fills
  against shared depth, settlement, snapshots and generations, and the ledger object with its loops.
  `LedgerOutcomes`, `LedgerMarks`, `LedgerSubmissions` and `LedgerRecords` say what a book or a permit makes
  of an order, a mark and a snapshot.
- **Account machine** (`AccountModel`, `AccountHandoff`, `AccountSafety`, `AccountHistory`,
  `AccountMarket`, `AccountJournal`, `AccountMachine`): risk and ledger behind one hash-chained journal.
- **Durable account** (`AccountStore`, `AccountFencing`, `AccountLeases`, `AccountDurability`,
  `AccountRepository`): leases, idempotent commits and the command table, one atomic step per transaction.
- **Venue and brokers** (`VenueModel`, `VenueSafety`, `VenueViews`, `VenueRecords`, `PaperVenue`): the local
  journal, its replay, and disposable views.
- **Model budgets** (`BudgetModel`, `BudgetSafety`, `BudgetHistory`, `BudgetWindows`, `BudgetRecords`,
  `BudgetLedger`) and **runs** (`RunModel`, `RunHistory`, `RunWorkers`, `RunVerdicts`, `RunRepository`):
  admission control, at-most-once dispatch and write-once receipts.

Each component is a specification on values, theorems about its runs, and a class whose methods, with
the engine's own loops and in-place updates, are proved to leave exactly the specified state and result.
An exception is an `Err`; operations that change state before they raise specify the state they leave.
Content hashes are function values; where a property needs distinct inputs to hash apart, it says so
in its `requires` (`Injective`). Check everything with `dafny verify dfyconfig.toml`.

## Main results

- `AccountHistory.BookkeepersAgree`: whatever risk approves inside an `orders` command is handed off and
  accepted by the ledger, in every reachable account and at every point of a batch.
- `LedgerHistory.ReachableLedgerIsSafe`, `ProfitAndLossIsConserved`, `GenerationHistory`: the ledger's
  "cannot happen" refusals are unreachable even inside a matching pass, value is conserved over all days
  and generations, and orders follow the immediate-or-cancel life cycle.
- `RiskTheorems.SizingIsExact`, `ExchangeOfApprovals`, `RiskSafety.WholeSessionSafety`: sizing is exact and
  monotone, approvals can be exchanged, and a whole session stays within cash, stock and every cap.
- `RiskReasons.ApprovedExactly`, `RiskAllowance.EvaluationIsLargestAllowed`: an evaluation approves the largest
  amount that portfolio, reservations and policies allow, stated without its gates, view or search.
- `RiskRecheck.HandoffIsExact`, `RiskGuard.IssuedAtMostOnce`, `ReachableGuardIsExact`, `AccountMarket.MarketIsGuarded`:
  exactly when what a session reserved is handed off, once, and when it may still execute; what may not is
  cancelled without a fill.
- `LedgerOutcomes.ObserveOutcomes`, `LedgerSubmissions.SubmissionIsExact`: what every book makes of every order,
  and which permits become orders.
- `AccountFencing.Fencing`, `JournalIsLinear`, `AccountLeases.TakenOnlyWhenFree`,
  `AccountDurability.RestoredMachineIsSound`: exclusive, fenced leases and exactly-once commits under any
  interleaving, and a restored machine that every account theorem applies to.
- `VenueSafety.FinalHashFixesBundle`, `VenueViews.ViewsAreHonest`, `VenueRecords.JournalHoldsEachOnce`: replay
  refines live execution, views are honest and repeats change nothing.
- `BudgetHistory.BudgetsAreKept`, `MeteredSpendingIsCapped`, `BudgetWindows.ClosedMinuteIsBounded`,
  `BudgetRecords.AdmittedOnce`; `RunWorkers.DispatchIsAtMostOnce`, `RunVerdicts.CompletedMeansReported`.

## Where the code and a natural reading differ

- The loss and drawdown gates refuse at the limit while sizing allows the limit. A buy approved without a
  fee can therefore be refused at handoff after a later buy (`FreeApprovalCanFailRecheck`). The recheck
  approves exactly when the gates are open, and with a fee they always are (`RecheckAfterBuyIsGated`).
- A sell approved after a buy shrinks the equity the buy's caps were measured on, and the buy can then be
  refused at handoff (`LaterSellCanBreakBuy`). It still fits exactly when its caps hold of the equity both
  fees leave (`BuyAfterSellIsExact`), which a sell without a fee never changes (`FreeSellKeepsBuy`). In a
  session, a buy with an intact context is handed off exactly when the account that all reservations leave
  keeps the limits (`HandoffIsExact`). The caps against starting equity hold in every session, those against the remaining
  equity in sessions without sells.
- The per-minute limit holds of both half-open minutes. A closed minute holds as much more as there is at
  exactly its other end: at most twice the limit (`ClosedMinuteIsBounded`), which some run attains under
  every limit (`ClosedMinuteCanHoldTwice`). `ClosedMinuteAtAdmission` tells it at each admission.

## Model

| member | source | states |
|---|---|---|
| Fixed.CeilDiv | kavrigo-engine/services/risk-engine/src/kavrigo_risk/fixed.py:30-31 | the quotient is the least integer at or above the exact one, for negative numerators too |
| Fixed.ProductIsExact | kavrigo-engine/services/risk-engine/src/kavrigo_risk/fixed.py:34-38 | a product is returned only when it is exact and in range, and refused only when no in-range unit count is exact |
| Fixed.ProductOfAligned | kavrigo-engine/services/paper-broker/src/kavrigo_paper/contracts.py:25-34 | once lot times tick is representable, products of their multiples leave no remainder and can fail only by magnitude |
| Fixed.ProductMonotone | kavrigo-engine/services/risk-engine/src/kavrigo_risk/fixed.py:34-38 | a larger quantity never has a smaller value at the same price |
| Fixed.UnitsIsExact | kavrigo-engine/services/risk-engine/src/kavrigo_risk/fixed.py:14-21 | a decimal reads as `v` units exactly when it is finite, within the exponent bound, in range and equal to `v` units |
| Fixed.UnitsOfText | kavrigo-engine/services/risk-engine/src/kavrigo_risk/fixed.py:14-27 | printing any in-range unit count and reading it back gives the same count |
| Fixed.Average | kavrigo-engine/services/paper-broker/src/kavrigo_paper/ledger.py:46-48 | within half a unit of the true ratio, and even on a tie |
| Fixed.AverageIsPositive | kavrigo-engine/services/paper-broker/src/kavrigo_paper/ledger.py:46-48 | at one unit of cost or more per unit held, the displayed average is a valid positive price |
| RiskAccount.SumPositions | kavrigo-engine/services/risk-engine/src/kavrigo_risk/evaluator.py:65-86 | the position loop computes exposure, per-asset, per-network and per-instrument totals, or nothing for an unvaluable position |
| RiskAccount.ChargeReservations | kavrigo-engine/services/risk-engine/src/kavrigo_risk/evaluator.py:99-108 | the reservation loop charges every reservation in turn |
| RiskAccount.ComputeAccountState | kavrigo-engine/services/risk-engine/src/kavrigo_risk/evaluator.py:62-120 | both loops and the consistency checks between them |
| RiskAccount.ReserveCommutes | kavrigo-engine/services/risk-engine/src/kavrigo_risk/evaluator.py:100-108 | two reservations may be taken in either order |
| RiskAccount.ReserveAnywhere | kavrigo-engine/services/risk-engine/src/kavrigo_risk/evaluator.py:100-108 | where a reservation stands in the list does not matter |
| RiskAccount.ReserveAllTotals | kavrigo-engine/services/risk-engine/src/kavrigo_risk/evaluator.py:100-120 | after all reservations cash, equity, losses, exposure, each asset, network and instrument moved by exactly the totals reserved |
| RiskPortfolio.ValuedIs | kavrigo-engine/services/risk-engine/src/kavrigo_risk/evaluator.py:65-86 | positions are valued exactly when each of them can be, and each group totals the values of its own positions |
| RiskPortfolio.BaseIs | kavrigo-engine/services/risk-engine/src/kavrigo_risk/evaluator.py:62-120 | the view exists exactly for a portfolio that agrees with its own positions; exposure, asset and network entries are sums of position values, open assets those with a positive total, the peak is the portfolio's, and losses are the greater of zero and what was lost today |
| RiskSizing.ViolationsIff | kavrigo-engine/services/risk-engine/src/kavrigo_risk/evaluator.py:348-409 | the violation list is empty exactly when the candidate meets every order and policy limit |
| RiskSizing.GateReasonsIff | kavrigo-engine/services/risk-engine/src/kavrigo_risk/evaluator.py:319-346 | no gate reason is given exactly when every market, loss and drawdown gate is open |
| RiskSizing.FitsMonotone | kavrigo-engine/services/risk-engine/src/kavrigo_risk/evaluator.py:348-416 | all sizing constraints are monotone: in the candidate, in tightening the account and in adding policies |
| RiskSizing.ReserveTightens | kavrigo-engine/services/risk-engine/src/kavrigo_risk/evaluator.py:100-108 | a reservation only ever tightens the account |
| RiskSizing.SearchSteps | kavrigo-engine/services/risk-engine/src/kavrigo_risk/evaluator.py:411-421 | the binary search finds what counting down from the request finds |
| RiskTheorems.SizingIsExact | kavrigo-engine/services/risk-engine/src/kavrigo_risk/evaluator.py:299-460 | the approved amount is the largest multiple of the increment within the request that is approvable, and a larger multiple violates some limit |
| RiskTheorems.SizedIs | kavrigo-engine/services/risk-engine/src/kavrigo_risk/evaluator.py:422-456 | quantity, cost and debit of an approval as functions of its amount; a refusal carries no quantity |
| RiskTheorems.BuyQuantityIsCovered | kavrigo-engine/services/risk-engine/src/kavrigo_risk/evaluator.py:312-316 | a buy quantity at the worst price costs at most the amount, was on display, and its debit is covered by cash |
| RiskTheorems.MostRestrictiveWins | kavrigo-engine/services/risk-engine/src/kavrigo_risk/evaluator.py:319-433 | adding policies or tightening the account never raises an approval |
| RiskTheorems.EarlierReservationLowersApproval | kavrigo-engine/services/risk-engine/src/kavrigo_risk/evaluator.py:100-119 | an earlier reservation, buy or sell and anywhere in the list, never raises an approval |
| RiskTheorems.ExchangeOfApprovals | kavrigo-engine/services/risk-engine/src/kavrigo_risk/evaluator.py:348-409 | if A is sized with R and B with R and A, then A still violates nothing with R and B |
| RiskTheorems.GatesAfterExchange | kavrigo-engine/services/risk-engine/src/kavrigo_risk/evaluator.py:337-346 | with a fee of its own, an earlier buy also passes the strict loss gates after a later buy |
| RiskTheorems.RecheckAfterBuyIsGated | kavrigo-engine/services/risk-engine/src/kavrigo_risk/session.py:302-325 | the recheck of an earlier buy approves it again for no less exactly when its gates are still open |
| RiskTheorems.RecheckApproves | kavrigo-engine/services/risk-engine/src/kavrigo_risk/session.py:302-313 | a recheck on which the amount fits and the gates open approves at least that amount |
| RiskExchange.FreeApprovalCanFailRecheck | kavrigo-engine/services/risk-engine/src/kavrigo_risk/evaluator.py:337-346 | two buys approved in full, the first without a fee, after which the first one is approved for nothing: losses meet the limit exactly |
| RiskTheorems.FitsSplit | kavrigo-engine/services/risk-engine/src/kavrigo_risk/evaluator.py:319-409 | an amount fits with open gates exactly when it meets the limits not measured on equity and, buying, the caps and strict gates on equity |
| RiskTheorems.PlainFitsBesideNewcomer | kavrigo-engine/services/risk-engine/src/kavrigo_risk/evaluator.py:348-409 | no later approval, buy or sell, takes the cash, stock, depth, size, market or open-position limits from an earlier one |
| RiskExchange.BuyAfterSellIsExact | kavrigo-engine/services/risk-engine/src/kavrigo_risk/evaluator.py:358-408 | a buy still fits after a later sell exactly when its caps hold of the equity both fees leave |
| RiskExchange.FreeSellKeepsBuy | kavrigo-engine/services/risk-engine/src/kavrigo_risk/evaluator.py:358-408 | a later sell without a fee never breaks a buy |
| RiskExchange.RecheckAfterSellIsExact | kavrigo-engine/services/risk-engine/src/kavrigo_risk/session.py:302-325 | the recheck of a buy after a later sell approves it for no less exactly when caps and strict gates hold of what the fees leave; with a fee of its own the caps decide alone |
| RiskExchange.LaterSellCanBreakBuy | kavrigo-engine/services/risk-engine/src/kavrigo_risk/evaluator.py:359-406 | a buy and a later sell, both approved in full, after which the buy is approved for less: the sell's fee takes it over its share of the remaining equity |
| RiskEvaluator.EvaluateRequest | kavrigo-engine/services/risk-engine/src/kavrigo_risk/evaluator.py:278-510 | the imperative evaluation gives the specified record and reservation |
| RiskEvaluator.ApprovalGrounds | kavrigo-engine/services/risk-engine/src/kavrigo_risk/evaluator.py:288-460 | an evaluation approves exactly when it reserves, never beyond the request; the reservation is what its amount takes and its context held |
| RiskEvaluator.MostRestrictiveEvaluation | kavrigo-engine/services/risk-engine/src/kavrigo_risk/session.py:128-139 | the union of policies approves no more than one registration alone, nor does an earlier reservation allow more |
| RiskAllowance.EvaluationIsLargestAllowed | kavrigo-engine/services/risk-engine/src/kavrigo_risk/evaluator.py:278-460 | on portfolio, reservations, request and policies alone: what is approved is allowed, and no larger multiple of the increment is |
| RiskAllowance.ApprovalIsAllowed | kavrigo-engine/services/risk-engine/src/kavrigo_risk/evaluator.py:422-510 | an approval is allowed with the cost, worst price, spread and quantity it was judged by, and record and reservation carry exactly those |
| RiskAllowance.ApprovedBuyIsBelowLossLimit | kavrigo-engine/services/risk-engine/src/kavrigo_risk/evaluator.py:337-346 | an approved buy has the losses realized today and all reserved costs strictly below every policy's daily-loss share of equity |
| RiskAllowance.ApprovalLapses | kavrigo-engine/services/risk-engine/src/kavrigo_risk/evaluator.py:501-506 | a record expires with the first of its intent, the controls, the lease and its own age, and an approval not before |
| RiskReasons.ContextReasonIs | kavrigo-engine/services/risk-engine/src/kavrigo_risk/evaluator.py:123-199 | each context reason is given exactly when its own check fails |
| RiskReasons.GateReasonIs | kavrigo-engine/services/risk-engine/src/kavrigo_risk/evaluator.py:319-346 | each gate reason is given exactly when some policy's gate of that kind is closed |
| RiskReasons.ViolationIs | kavrigo-engine/services/risk-engine/src/kavrigo_risk/evaluator.py:348-409 | a reason under a scope is reported exactly when the amount breaks that limit of the order or of a policy of that scope |
| RiskReasons.BindingIs | kavrigo-engine/services/risk-engine/src/kavrigo_risk/evaluator.py:434-456 | a request cut down names the scope of the first limit the next larger amount breaks, order limits before policies and policies in their order |
| RiskReasons.VerdictIs | kavrigo-engine/services/risk-engine/src/kavrigo_risk/evaluator.py:461-510 | rejected, resized or approved as the amount approved is nothing, less than or all of what was asked for; the record names its request |
| RiskReasons.ReasonIs | kavrigo-engine/services/risk-engine/src/kavrigo_risk/evaluator.py:288-460 | the reasons of a record, each once, are what failed in context, account, gates or limits and nothing else |
| RiskReasons.ApprovedExactly | kavrigo-engine/services/risk-engine/src/kavrigo_risk/evaluator.py:278-460 | a request is approved exactly when its context holds, its account can be valued and some multiple of the increment is allowed |
| RiskGate.LocalRiskSession.Open | kavrigo-engine/services/risk-engine/src/kavrigo_risk/session.py:70-139 | the construction loops build the specified session or raise the specified error |
| RiskGate.LocalRiskSession.Merge | kavrigo-engine/services/risk-engine/src/kavrigo_risk/session.py:121-125 | policies are merged by id and one id with two contents is refused |
| RiskGate.LocalRiskSession.Register | kavrigo-engine/services/risk-engine/src/kavrigo_risk/session.py:95-125 | one registration is checked for workspace, upper-scope, asset and network conflicts, then merged |
| RiskGate.LocalRiskSession.Reservations | kavrigo-engine/services/risk-engine/src/kavrigo_risk/session.py:205-210 | the reservations in intent order, without the excluded intent |
| RiskGate.LocalRiskSession.UpdateControls | kavrigo-engine/services/risk-engine/src/kavrigo_risk/session.py:188-203 | controls are replaced only by a newer version at a time that has come, and audited |
| RiskGate.LocalRiskSession.Evaluate | kavrigo-engine/services/risk-engine/src/kavrigo_risk/session.py:212-260 | a known key returns its record, a new one is sized against every reservation and recorded; whole new state and result, also when it raises |
| RiskGate.LocalRiskSession.Handoff | kavrigo-engine/services/risk-engine/src/kavrigo_risk/session.py:262-353 | whole new state and result of a handoff on every path, also when it raises |
| RiskGate.LocalRiskSession.ExecutionAllowed | kavrigo-engine/services/risk-engine/src/kavrigo_risk/session.py:355-391 | the specified answer, and only the clock moves; what the answer is, `AllowedIsExact` says |
| RiskGate.LocalRiskSession.ExecutionGuard | kavrigo-engine/services/risk-engine/src/kavrigo_risk/session.py:393-411 | the guard lists, in order, the commands that may not execute |
| RiskSession.GuardScope | kavrigo-engine/services/risk-engine/src/kavrigo_risk/session.py:393-411 | the guard changes nothing but the clock |
| RiskSafety.SessionAppliesUnion | kavrigo-engine/services/risk-engine/src/kavrigo_risk/session.py:121-139 | every agent is held to one list that contains exactly the policies of all registrations |
| RiskSafety.StandsBesideNewcomer | kavrigo-engine/services/risk-engine/src/kavrigo_risk/session.py:262-318 | an approval that stands keeps standing when another is approved after it, a buy as long as nothing is sold; its plain limits hold whatever comes |
| RiskSafety.EvaluateInKeeps | kavrigo-engine/services/risk-engine/src/kavrigo_risk/session.py:212-260 | an evaluation keeps the session invariant on every path |
| RiskSafety.HandoffKeeps | kavrigo-engine/services/risk-engine/src/kavrigo_risk/session.py:262-353 | a handoff keeps the session invariant on every path |
| RiskSafety.OpKeeps | kavrigo-engine/services/risk-engine/src/kavrigo_risk/session.py:188-411 | every operation keeps the session invariant, also when it raises |
| RiskSafety.WholeSessionSafety | kavrigo-engine/services/risk-engine/src/kavrigo_risk/session.py:205-260 | over any run: debits within cash, sells within stock, and after a buy the starting exposure plus reserved buys within every gross, asset and network share of starting equity, and of the equity after all costs while nothing was sold |
| RiskSafety.LaterApprovalsDoNotWithdraw | kavrigo-engine/services/risk-engine/src/kavrigo_risk/session.py:302-325 | while nothing was sold a reserved fee-paying buy is approved again at handoff whatever buys were approved since, and a sell whatever was approved since |
| RiskRecheck.RecheckIsExact | kavrigo-engine/services/risk-engine/src/kavrigo_risk/session.py:302-325 | with buys and sells in any order, the recheck approves a reservation again exactly when its context holds and, for a buy, the account all reservations leave keeps every loss, drawdown and exposure limit, strictly where the buy pays no fee |
| RiskRecheck.HandoffIsExact | kavrigo-engine/services/risk-engine/src/kavrigo_risk/session.py:262-353 | after any run of a session, a live approval with the current token is handed off exactly under that condition |
| RiskGuard.IssuedAtMostOnce | kavrigo-engine/services/risk-engine/src/kavrigo_risk/session.py:262-353 | over any run each intent is issued at most one permit, before its record expired, and its entry keeps exactly that permit |
| RiskGuard.AllowedIsExact | kavrigo-engine/services/risk-engine/src/kavrigo_risk/session.py:355-391 | an intent may execute exactly when it was issued, the token is the current one and its own, the record is unexpired, its context holds, and so do the limits on the account all reservations leave |
| RiskGuard.GuardIsExact | kavrigo-engine/services/risk-engine/src/kavrigo_risk/session.py:393-411 | the guard lists, in order, exactly the commands for which that fails |
| RiskGuard.ReachableGuardIsExact | kavrigo-engine/services/risk-engine/src/kavrigo_risk/session.py:393-411 | the same in any session a run reaches, against the union of all registered policies |
| RiskTrail.OpenedRegistrationsAgree | kavrigo-engine/services/risk-engine/src/kavrigo_risk/session.py:70-139 | a session opens only on registrations of one workspace that agree on upper policies, policy contents and networks, with at most sixteen policies |
| RiskTrail.ControlsAreRenewed | kavrigo-engine/services/risk-engine/src/kavrigo_risk/session.py:188-203 | controls are replaced exactly by a newer version for the same account under no older token, at a time that has come and while the trail has room |
| RiskTrail.SessionMovesOn | kavrigo-engine/services/risk-engine/src/kavrigo_risk/session.py:154-186 | between any two points of a run trail, clock and controls only move forward, events count from one, and no two answered requests share a key, an intent or a decision |
| RiskTrail.AnsweredOnce | kavrigo-engine/services/risk-engine/src/kavrigo_risk/session.py:218-240 | an answered request gets its record again; its key for another request, or its decision for another intent, is refused; nothing changes |
| RiskTrail.HandoffCloses | kavrigo-engine/services/risk-engine/src/kavrigo_risk/session.py:280-353 | a stale token leaves an approval open; otherwise it is closed for good under one event: expired, refused or handed off |
| RiskTrail.PermitCarries | kavrigo-engine/services/risk-engine/src/kavrigo_risk/session.py:326-348 | a permit carries its intent, its record, the execution terms of its agent and an identifier of its own |
| PaperLedger.Ledger.Open | kavrigo-engine/services/paper-broker/src/kavrigo_paper/ledger.py:70-121 | the construction loop accepts or refuses a starting portfolio as specified |
| PaperLedger.Ledger.ReservedCash | kavrigo-engine/services/paper-broker/src/kavrigo_paper/ledger.py:131-136 | the sum over open orders of ceiling less debit |
| PaperLedger.Ledger.ReservedQuantity | kavrigo-engine/services/paper-broker/src/kavrigo_paper/ledger.py:291-297 | the sum of the targets of open sells of one instrument |
| PaperLedger.Ledger.Exposed | kavrigo-engine/services/workflows/src/kavrigo_workflows/machine.py:116-121 | the open orders a book is about, each with its token |
| PaperLedger.Ledger.Valuation | kavrigo-engine/services/paper-broker/src/kavrigo_paper/ledger.py:142-165 | the loop over holdings values them in instrument order or gives the first failure |
| PaperLedger.Ledger.Snapshot | kavrigo-engine/services/paper-broker/src/kavrigo_paper/ledger.py:142-195 | the snapshot of the state, with the checks of the portfolio contract |
| PaperLedger.Ledger.Submit | kavrigo-engine/services/paper-broker/src/kavrigo_paper/ledger.py:254-330 | a permit is refused with the ledger unchanged, or becomes one order |
| PaperLedger.Ledger.SearchLots | kavrigo-engine/services/paper-broker/src/kavrigo_paper/ledger.py:422-433 | the loop gives the result of the specified search |
| PaperLedger.Ledger.Settle | kavrigo-engine/services/paper-broker/src/kavrigo_paper/ledger.py:440-459 | cash, holding, mark time, realized P&L and fees move together or the fill is refused |
| PaperLedger.Ledger.FillLevel | kavrigo-engine/services/paper-broker/src/kavrigo_paper/ledger.py:391-491 | the whole new ledger and depth after one order meets one level |
| PaperLedger.Ledger.FillLevels | kavrigo-engine/services/paper-broker/src/kavrigo_paper/ledger.py:381-385 | the loop over levels stops when the order is filled |
| PaperLedger.Ledger.Record | kavrigo-engine/services/paper-broker/src/kavrigo_paper/ledger.py:354-357 | the book, its health and a held mark are replaced |
| PaperLedger.Ledger.MatchOne | kavrigo-engine/services/paper-broker/src/kavrigo_paper/ledger.py:362-389 | expiry, latency, sealing, blocking, health and execution of one order |
| PaperLedger.Ledger.Execute | kavrigo-engine/services/paper-broker/src/kavrigo_paper/ledger.py:379-389 | acceptance, fills and the terminal status of one order |
| PaperLedger.Ledger.Match | kavrigo-engine/services/paper-broker/src/kavrigo_paper/ledger.py:362-389 | the pass over the orders with shared depth |
| PaperLedger.Ledger.Market | kavrigo-engine/services/paper-broker/src/kavrigo_paper/ledger.py:332-389 | one observed book: checks, health, mark and matching |
| PaperLedger.Ledger.CancelOrder | kavrigo-engine/services/paper-broker/src/kavrigo_paper/ledger.py:209-217 | an open order is cancelled, a terminal one stays |
| PaperLedger.Ledger.Apply | kavrigo-engine/services/paper-broker/src/kavrigo_paper/ledger.py:197-220 | a command gives a new ledger or an error, and the ledger it was applied to never changes |
| PaperLedger.Ledger.BeginGeneration | kavrigo-engine/services/paper-broker/src/kavrigo_paper/ledger.py:222-239 | a new generation on a copy, or the refusal |
| LedgerFills.AllowedMonotone | kavrigo-engine/services/paper-broker/src/kavrigo_paper/ledger.py:422-425 | affordability is monotone in the number of lots |
| LedgerFills.SearchIsMaximal | kavrigo-engine/services/paper-broker/src/kavrigo_paper/ledger.py:427-433 | the search answers an affordable count, and nothing larger is affordable |
| LedgerFills.PriceIsAligned | kavrigo-engine/services/paper-broker/src/kavrigo_paper/ledger.py:402-411 | the execution price is a whole number of ticks |
| LedgerFills.PriceIsAdverse | kavrigo-engine/services/paper-broker/src/kavrigo_paper/ledger.py:402-411 | a buyer never pays less than the level, a seller never receives more; how much, `ExecutionPriceIs` says |
| LedgerOutcomes.ExecutionPriceIs | kavrigo-engine/services/paper-broker/src/kavrigo_paper/ledger.py:402-411 | a buy executes at the least multiple of the tick at or above the level moved up by the permit's slippage, a sell at the greatest at or below the level moved down by it |
| LedgerOutcomes.ExecutionPriceIsNearest | kavrigo-engine/services/paper-broker/src/kavrigo_paper/ledger.py:402-411 | no other multiple of the tick on that side is nearer |
| LedgerFills.LevelFillIsMaximal | kavrigo-engine/services/paper-broker/src/kavrigo_paper/ledger.py:407-437 | a level fill is the largest whole number of lots within target, depth, notional and cash ceiling; it is refused only when the largest value is not representable |
| LedgerSafety.BasisAfterSale | kavrigo-engine/services/paper-broker/src/kavrigo_paper/ledger.py:448-453 | the cost basis left after a sale stays positive enough for a valid average, and is zero when all is sold |
| LedgerSafety.SettleSucceeds | kavrigo-engine/services/paper-broker/src/kavrigo_paper/ledger.py:442-447 | a fill within the order's limits never meets the cash or the position refusal |
| LedgerSafety.SettledKeeps | kavrigo-engine/services/paper-broker/src/kavrigo_paper/ledger.py:437-491 | a fill keeps reserved cash covered, sells covered by stock, orders within their permits and holdings valid |
| LedgerSafety.FillLevelKeeps | kavrigo-engine/services/paper-broker/src/kavrigo_paper/ledger.py:391-491 | in the middle of a pass the invariant holds after every level and the only refusal is an unrepresentable value |
| LedgerSafety.AverageFillPriceIsPositive | kavrigo-engine/services/paper-broker/src/kavrigo_paper/ledger.py:480-491 | the average fill price an order shows is positive |
| LedgerConservation.FillConserves | kavrigo-engine/services/paper-broker/src/kavrigo_paper/ledger.py:437-461 | a fill leaves cash plus basis less realized P&L unchanged, and counts exactly its own fee |
| LedgerConservation.SettledBasis | kavrigo-engine/services/paper-broker/src/kavrigo_paper/ledger.py:440-459 | a buy adds its gross to the basis; a sell releases its exact share of the basis rounded down, and realizes gross less that share and fee |
| LedgerConservation.SliceTaken | kavrigo-engine/services/paper-broker/src/kavrigo_paper/ledger.py:462-479 | a fill is charged to its own level of its own book and to no other |
| LedgerPass.FillLevelsKeep | kavrigo-engine/services/paper-broker/src/kavrigo_paper/ledger.py:381-385 | one order's walk over the levels keeps the invariant, conserves value, only adds fills and charges the depth exactly |
| LedgerPass.StatusKeeps | kavrigo-engine/services/paper-broker/src/kavrigo_paper/ledger.py:241-252 | a status change of an open order keeps the invariant |
| LedgerMatching.MatchOrderSteps | kavrigo-engine/services/paper-broker/src/kavrigo_paper/ledger.py:362-389 | matching one order leaves every order resting or terminal and never meets an impossible state |
| LedgerMatching.PassKeeps | kavrigo-engine/services/paper-broker/src/kavrigo_paper/ledger.py:362-389 | a whole pass does so, and on each side what is left of the depth is what was displayed less what was taken |
| LedgerOutcomes.MatchOrderOutcome | kavrigo-engine/services/paper-broker/src/kavrigo_paper/ledger.py:362-389 | one order is skipped, expired, cancelled or traded by expiry, latency, blocking, health and age; each fill is whole lots at its own level's execution price with the least fee covering its gross |
| LedgerOutcomes.ObserveOutcomes | kavrigo-engine/services/paper-broker/src/kavrigo_paper/ledger.py:332-389 | an accepted book follows its predecessor and lies on the grid, and every order has that outcome |
| LedgerMarks.ObservedMarks | kavrigo-engine/services/paper-broker/src/kavrigo_paper/ledger.py:354-372 | a book replaces book and health, a healthy one marks its held instrument at its best bid, nothing else is marked, and the batch is sealed exactly when an order is matched |
| LedgerRuns.ValueIs | kavrigo-engine/services/paper-broker/src/kavrigo_paper/ledger.py:142-165 | a valuation fails only by representability, is never negative and differs from cost by the unrealized P&L |
| LedgerRuns.SnapshotIs | kavrigo-engine/services/paper-broker/src/kavrigo_paper/ledger.py:142-195 | a snapshot never breaks the portfolio contract: reserved within cash, equity within peak |
| LedgerRuns.EquityIs | kavrigo-engine/services/paper-broker/src/kavrigo_paper/ledger.py:142-178 | equity is cash plus basis, that is worth plus realized plus unrealized P&L |
| LedgerRuns.SubmitKeeps | kavrigo-engine/services/paper-broker/src/kavrigo_paper/ledger.py:254-330 | a submission keeps the invariant or is refused for seal, issuance, cash or quantity |
| LedgerRuns.CancelKeeps | kavrigo-engine/services/paper-broker/src/kavrigo_paper/ledger.py:209-217 | a cancellation keeps the invariant |
| LedgerSubmissions.SubmissionIsExact | kavrigo-engine/services/paper-broker/src/kavrigo_paper/ledger.py:254-330 | a permit is accepted exactly while the batch is open, when it was issued for this ledger and is covered by unreserved cash and stock; it becomes one order for its whole lots, rejected at once when there are none or its notional is too small |
| LedgerSubmissions.CancellationIsExact | kavrigo-engine/services/paper-broker/src/kavrigo_paper/ledger.py:209-217 | a cancellation ends the one open order of that name and touches nothing else |
| LedgerSubmissions.GenerationIsExact | kavrigo-engine/services/paper-broker/src/kavrigo_paper/ledger.py:222-239 | a generation begins exactly with nothing open and the account reconciled, from the portfolio shown, with everything else carried over |
| LedgerRuns.ObserveKeeps | kavrigo-engine/services/paper-broker/src/kavrigo_paper/ledger.py:332-389 | an observed book keeps the invariant, including the fills of every level of every book |
| LedgerRuns.ApplyKeeps | kavrigo-engine/services/paper-broker/src/kavrigo_paper/ledger.py:197-220 | every command keeps the invariant, conserves worth, counts its fees and lets orders only evolve; no impossible refusal |
| LedgerRuns.GenerationKeeps | kavrigo-engine/services/paper-broker/src/kavrigo_paper/ledger.py:222-239 | a generation starts only when nothing is open and the account is reconciled, carries the accounting exactly and starts from the portfolio it shows |
| LedgerGenerations.CreateKeeps | kavrigo-engine/services/paper-broker/src/kavrigo_paper/ledger.py:70-121 | a created ledger satisfies the invariant and holds exactly the portfolio it was given |
| LedgerGenerations.ApplySteady | kavrigo-engine/services/paper-broker/src/kavrigo_paper/ledger.py:197-220 | cash and stock stay those of the generation's start until the batch is sealed; whole lots and ticks stay whole |
| LedgerGenerations.ShownPositions | kavrigo-engine/services/paper-broker/src/kavrigo_paper/ledger.py:145-165 | the positions a snapshot shows are the holdings |
| LedgerHistory.ReachableLedgerIsSafe | kavrigo-engine/services/paper-broker/src/kavrigo_paper/ledger.py:197-239 | every ledger reachable by commands and generations: reserved cash and sells covered, orders within permits, open orders untraded, no level over-filled, and no impossible refusal next |
| LedgerHistory.ProfitAndLossIsConserved | kavrigo-engine/services/paper-broker/src/kavrigo_paper/ledger.py:142-178 | between any two points of a history equity moves by exactly the realized P&L of all days plus unrealized P&L |
| LedgerHistory.GenerationHistory | kavrigo-engine/services/paper-broker/src/kavrigo_paper/ledger.py:222-258 | within a generation fills only accumulate, terminal orders stay, a sealed batch admits nothing, and fees, cash and the stock of every instrument move by exactly what the fills say |
| LedgerRecords.OrdersAreIssued | kavrigo-engine/services/paper-broker/src/kavrigo_paper/ledger.py:254-284 | every order of a reachable ledger was issued for this account, portfolio and mode under an approval live at its submission, and no two share an intent or identifier |
| LedgerRecords.PeakIsHighWater | kavrigo-engine/services/paper-broker/src/kavrigo_paper/ledger.py:197-220 | a command raises the peak to the new equity exactly when that is higher |
| LedgerRecords.ShownIs | kavrigo-engine/services/paper-broker/src/kavrigo_paper/ledger.py:142-195 | a snapshot shows cash, reserved cash, today's realized P&L, equity, peak, orders, and reconciled exactly when every last book was healthy and every holding marked recently enough |
| LedgerHistory.AlignedValuationIsExact | kavrigo-engine/services/paper-broker/src/kavrigo_paper/ledger.py:150-151 | with whole lots and ticks at the start a valuation can only ever fail by magnitude |
| AccountMachine.AccountMachine.Open | kavrigo-engine/services/workflows/src/kavrigo_workflows/machine.py:42-63 | construction of ledger and session, or the first refusal |
| AccountMachine.AccountMachine.Process | kavrigo-engine/services/workflows/src/kavrigo_workflows/machine.py:91-113 | one request: whole new machine and record, or the refusal |
| AccountMachine.AccountMachine.ProcessAll | kavrigo-engine/services/workflows/src/kavrigo_workflows/machine.py:89-113 | the loop over a batch |
| AccountMachine.AccountMachine.Market | kavrigo-engine/services/workflows/src/kavrigo_workflows/machine.py:114-127 | guard and observation of one book |
| AccountMachine.AccountMachine.NextGeneration | kavrigo-engine/services/workflows/src/kavrigo_workflows/machine.py:136-141 | the ledger's new generation with a fresh session |
| AccountMachine.AccountMachine.Perform | kavrigo-engine/services/workflows/src/kavrigo_workflows/machine.py:89-144 | dispatch of all six kinds of command |
| AccountMachine.AccountMachine.Apply | kavrigo-engine/services/workflows/src/kavrigo_workflows/machine.py:74-165 | one journal command: receipt and whole new machine, or the refusal |
| AccountMachine.AccountMachine.ReplayEvent | kavrigo-engine/services/workflows/src/kavrigo_workflows/machine.py:172-177 | one journal event with its sequence and hash checks |
| AccountMachine.AccountMachine.Reconstruct | kavrigo-engine/services/workflows/src/kavrigo_workflows/machine.py:167-178 | the loop over the journal |
| AccountModel.ReceiptIs | kavrigo-engine/services/workflows/src/kavrigo_workflows/machine.py:145-165 | a receipt names the sequence, chain hash and snapshot of the machine it leaves |
| AccountHandoff.EvaluationIsFresh | kavrigo-engine/services/risk-engine/src/kavrigo_risk/session.py:220-260 | for a request the machine has not processed, a successful evaluation is a new one and never a replayed record |
| AccountHandoff.RecheckIsIdentical | kavrigo-engine/services/risk-engine/src/kavrigo_risk/session.py:302-310 | the re-evaluation at handoff gives the very record of the evaluation |
| AccountHandoff.ApprovalIsHandedOff | kavrigo-engine/services/risk-engine/src/kavrigo_risk/session.py:262-353 | in the same command an approval is always handed off, unless the audit trail is full |
| AccountHandoff.SessionCovers | kavrigo-engine/services/risk-engine/src/kavrigo_risk/session.py:205-210 | all reserved debits are within portfolio cash and all reserved sells within the positions |
| AccountHandoff.IssuanceHolds | kavrigo-engine/services/paper-broker/src/kavrigo_paper/ledger.py:259-284 | the permit passes every identity, scope and time check of the ledger |
| AccountHandoff.PermitIsCovered | kavrigo-engine/services/paper-broker/src/kavrigo_paper/ledger.py:285-300 | the permit's debit is within unreserved cash and its quantity within unreserved stock |
| AccountHandoff.SubmissionSucceeds | kavrigo-engine/services/paper-broker/src/kavrigo_paper/ledger.py:197-220 | a covered permit is accepted: the state after it can be shown |
| AccountSafety.ProcessKeepsCoupling | kavrigo-engine/services/workflows/src/kavrigo_workflows/machine.py:91-113 | after each request the ledger still reserves no more cash and stock than risk |
| AccountSafety.ApprovalReachesLedger | kavrigo-engine/services/workflows/src/kavrigo_workflows/machine.py:89-113 | what risk approves becomes exactly one ledger order under the issued permit, a full audit trail aside; submitted exactly when lots and notional reach the minimum, else rejected |
| AccountSafety.MarketKeeps | kavrigo-engine/services/workflows/src/kavrigo_workflows/machine.py:114-127 | a book keeps the machine consistent |
| AccountMarket.MarketOutcome | kavrigo-engine/services/workflows/src/kavrigo_workflows/machine.py:114-127 | an open order a book reaches is cancelled without a fill exactly when the session does not let it execute, and otherwise trades at the book's prices or is cancelled for health or age |
| AccountMarket.MarketIsGuarded | kavrigo-engine/services/workflows/src/kavrigo_workflows/machine.py:114-127 | the same for the account any commands of any generations made |
| AccountSafety.AdvanceKeeps | kavrigo-engine/services/workflows/src/kavrigo_workflows/machine.py:136-141 | a new generation starts consistent |
| AccountSafety.RenewKeeps | kavrigo-engine/services/workflows/src/kavrigo_workflows/machine.py:132-135 | new controls keep the machine consistent |
| AccountHistory.ExecuteKeeps | kavrigo-engine/services/workflows/src/kavrigo_workflows/machine.py:74-165 | every accepted command keeps the machine consistent and chains its receipt |
| AccountHistory.BookkeepersAgree | kavrigo-engine/services/workflows/src/kavrigo_workflows/machine.py:89-113 | in any account, after any commands of any generations and at any point of a batch, an approval is handed off and accepted by the ledger, a full audit trail aside; the order is submitted exactly when its lot target is positive and its notional reaches the minimum |
| AccountHistory.ReservationsAreOrdered | kavrigo-engine/services/paper-broker/src/kavrigo_paper/ledger.py:285-300 | until a batch is sealed: ledger reservations within risk reservations within cash and stock |
| AccountHistory.SmallAccountIsValid | kavrigo-engine/services/workflows/src/kavrigo_workflows/contracts.py:20-46 | a cash-only account with one agent and a policy of each mandatory scope meets the premises of the account theorems |
| AccountHistory.ReplayIsLive | kavrigo-engine/services/workflows/src/kavrigo_workflows/machine.py:167-178 | the journal of a live run replays to exactly the live machine |
| AccountJournal.AcceptedCommand | kavrigo-engine/services/workflows/src/kavrigo_workflows/machine.py:74-165 | a command is accepted only in its generation, not before the last one and on its account's day; a batch names each new intent and decision once |
| AccountJournal.JournalIsOrdered | kavrigo-engine/services/workflows/src/kavrigo_workflows/machine.py:74-165 | the journal of any account counts from one, never goes back in time, carries its generations and names no intent and no decision twice over all of them |
| AccountRepository.AccountRepository.Create | kavrigo-engine/services/workflows/src/kavrigo_workflows/accounts.py:46-73 | insert once, return the stored account for the same definition, refuse another |
| AccountRepository.AccountRepository.Acquire | kavrigo-engine/services/workflows/src/kavrigo_workflows/accounts.py:86-115 | the whole new lease columns or the refusal |
| AccountLeases.AcquireIs | kavrigo-engine/services/workflows/src/kavrigo_workflows/accounts.py:86-115 | a lease is refused as busy exactly while another owner's is unexpired; a grant lasts exactly the seconds asked for, under the same token for a renewal and the next one otherwise |
| AccountLeases.LeaseStands | kavrigo-engine/services/workflows/src/kavrigo_workflows/accounts.py:86-128 | under any interleaving a lease whose holder neither releases nor shortens it stands until it expires |
| AccountLeases.TakenOnlyWhenFree | kavrigo-engine/services/workflows/src/kavrigo_workflows/accounts.py:86-128 | a lease is gone only after it expired or its holder released or shortened it |
| AccountLeases.RowsHaveGrants | kavrigo-engine/services/workflows/src/kavrigo_workflows/accounts.py:174-291 | every journal row was written by an owner to whom its token had been granted before |
| AccountLeases.CommitIsExact | kavrigo-engine/services/workflows/src/kavrigo_workflows/accounts.py:187-291 | a known key or book is answered or refused by its hash; a new command is kept exactly when the lease is current at all three readings, the journal has room and the machine accepts it |
| AccountFencing.ReleaseKeeps | kavrigo-engine/services/workflows/src/kavrigo_workflows/accounts.py:117-128 | a release by the holder leaves no lease that holds from then on, any other release changes nothing, and the journal stays as it was |
| AccountRepository.AccountRepository.Restore | kavrigo-engine/services/workflows/src/kavrigo_workflows/accounts.py:130-166 | reconstruction with the head and projection checks |
| AccountRepository.AccountRepository.Commit | kavrigo-engine/services/workflows/src/kavrigo_workflows/accounts.py:187-291 | the whole new row and command table, or the refusal with nothing changed |
| AccountStore.AppendRestores | kavrigo-engine/services/workflows/src/kavrigo_workflows/accounts.py:243-277 | the journal with one more accepted command folds to the machine that command left |
| AccountFencing.CommitIsExactlyOnce | kavrigo-engine/services/workflows/src/kavrigo_workflows/accounts.py:187-291 | a commit returns a retained receipt of its key or book sequence, changes nothing or appends one row under a lease that holds throughout, and never reports corruption |
| AccountFencing.RetryReturnsTheReceipt | kavrigo-engine/services/workflows/src/kavrigo_workflows/accounts.py:193-218 | a retry of a journaled command returns its own receipt under any lease and time |
| AccountFencing.NextKeeps | kavrigo-engine/services/workflows/src/kavrigo_workflows/accounts.py:46-291 | every transaction keeps the invariant and extends journal and grants |
| AccountFencing.Fencing | kavrigo-engine/services/workflows/src/kavrigo_workflows/accounts.py:86-128 | one owner per token, non-decreasing journal tokens, nothing accepted under an old token or at or after either expiry |
| AccountFencing.JournalIsLinear | kavrigo-engine/services/workflows/src/kavrigo_workflows/accounts.py:130-166 | no key or book sequence twice, nothing lost, and the stored head is always what the journal reconstructs to |
| AccountDurability.ReplayIsRun | kavrigo-engine/services/workflows/src/kavrigo_workflows/machine.py:167-178 | a journal that replays at all replays to what its commands make of the machine when run |
| AccountDurability.RestoredMachineIsSound | kavrigo-engine/services/workflows/src/kavrigo_workflows/accounts.py:130-166 | under any interleaving the restored machine is the live machine of the retained commands and keeps the account machine's invariant |
| PaperVenue.ReplayEntry | kavrigo-engine/services/paper-broker/src/kavrigo_paper/account.py:52-62 | one entry with its link and state-hash checks |
| PaperVenue.Replay | kavrigo-engine/services/paper-broker/src/kavrigo_paper/account.py:47-63 | the replay loop |
| PaperVenue.LocalPaperVenue.Open | kavrigo-engine/services/paper-broker/src/kavrigo_paper/account.py:75-101 | a venue over a valid portfolio |
| PaperVenue.LocalPaperVenue.Commit | kavrigo-engine/services/paper-broker/src/kavrigo_paper/account.py:121-157 | one more journal entry with its indexes, or nothing changed |
| PaperVenue.LocalPaperVenue.Submit | kavrigo-engine/services/paper-broker/src/kavrigo_paper/account.py:159-182 | whole new venue and result on every path, also when it raises |
| PaperVenue.LocalPaperVenue.Observe | kavrigo-engine/services/paper-broker/src/kavrigo_paper/account.py:184-205 | whole new venue and result on every path, also when it raises |
| PaperVenue.LocalPaperVenue.Cancel | kavrigo-engine/services/paper-broker/src/kavrigo_paper/account.py:207-217 | whole new venue and result on every path, also when it raises |
| PaperVenue.LocalPaperVenue.Reconcile | kavrigo-engine/services/paper-broker/src/kavrigo_paper/account.py:236-242 | replay compared with the live ledger; only the clock moves |
| PaperVenue.LocalPaperBroker.Acknowledge | kavrigo-engine/services/paper-broker/src/kavrigo_paper/account.py:284-289 | a lost acknowledgement disconnects, a received one reads again |
| PaperVenue.LocalPaperBroker.Submit | kavrigo-engine/services/paper-broker/src/kavrigo_paper/account.py:291-307 | venue, copy and result of a submission through a broker |
| PaperVenue.LocalPaperBroker.Observe | kavrigo-engine/services/paper-broker/src/kavrigo_paper/account.py:309-316 | venue, copy and result of an observation through a broker |
| PaperVenue.LocalPaperBroker.Cancel | kavrigo-engine/services/paper-broker/src/kavrigo_paper/account.py:318-328 | venue, copy and result of a cancellation through a broker |
| PaperVenue.LocalPaperBroker.Reconcile | kavrigo-engine/services/paper-broker/src/kavrigo_paper/account.py:330-348 | the copy is replaced and the missing fills are named |
| VenueSafety.FinalHashFixesBundle | kavrigo-engine/services/paper-broker/src/kavrigo_paper/account.py:37-63 | with an injective hash two accepted bundles with one final hash have the same header and entries |
| VenueSafety.ReplayIsSound | kavrigo-engine/services/paper-broker/src/kavrigo_paper/account.py:47-63 | an accepted journal gives a sound ledger that has only evolved since each earlier entry |
| VenueSafety.ReplayRefinesLive | kavrigo-engine/services/paper-broker/src/kavrigo_paper/account.py:219-242 | replaying the export is accepted and shows the live ledger |
| VenueSafety.CommitKeeps | kavrigo-engine/services/paper-broker/src/kavrigo_paper/account.py:121-157 | a commit extends the journal by one entry and keeps it replayable |
| VenueRecords.FreshSubmissionIs | kavrigo-engine/services/paper-broker/src/kavrigo_paper/account.py:159-182 | a submission of a new intent leaves the journal alone, or adds one entry with the permit the session handed off, only while open, reconciled and in time |
| VenueRecords.FreshObservationIs | kavrigo-engine/services/paper-broker/src/kavrigo_paper/account.py:184-205 | a new book leaves the journal alone, or adds one entry with exactly the intents the guard listed |
| VenueRecords.CancellationIs | kavrigo-engine/services/paper-broker/src/kavrigo_paper/account.py:207-217 | an unknown order is refused, a terminal one returned, an open one cancelled by one entry |
| VenueViews.SubmitExtends | kavrigo-engine/services/paper-broker/src/kavrigo_paper/account.py:159-182 | a submission only ever extends the journal |
| VenueViews.ObserveExtends | kavrigo-engine/services/paper-broker/src/kavrigo_paper/account.py:184-205 | an observation only ever extends the journal |
| VenueViews.ReconcileIsLive | kavrigo-engine/services/paper-broker/src/kavrigo_paper/account.py:236-242 | reconciliation never reports a mismatch and returns the live state |
| VenueViews.ViewsAreHonest | kavrigo-engine/services/paper-broker/src/kavrigo_paper/account.py:261-289 | for any brokers and lost acknowledgements: the export replays to the live snapshot, and a view that reports itself reconciled is that snapshot |
| VenueViews.FillsNeverDisappear | kavrigo-engine/services/paper-broker/src/kavrigo_paper/account.py:121-157 | no fill a venue ever showed disappears |
| VenueRecords.JournalHoldsEachOnce | kavrigo-engine/services/paper-broker/src/kavrigo_paper/account.py:117-205 | whatever brokers do, the journal stays within capacity, never goes back in time, submits each intent once and observes each book once |
| VenueRecords.RepeatedSubmission | kavrigo-engine/services/paper-broker/src/kavrigo_paper/account.py:164-166 | a journaled intent is answered with its one order, whatever happened since, and nothing changes |
| VenueRecords.RepeatedObservation | kavrigo-engine/services/paper-broker/src/kavrigo_paper/account.py:187-191 | a journaled book is accepted or refused by its hash, whatever happened since, and nothing changes |
| VenueRecords.DoubtIsShown | kavrigo-engine/services/paper-broker/src/kavrigo_paper/account.py:261-282 | a broker cut off or behind the journal shows no order as open and itself as unreconciled, and everything else as in its copy |
| VenueRecords.AcknowledgedIs | kavrigo-engine/services/paper-broker/src/kavrigo_paper/account.py:284-328 | an operation that fails or is not acknowledged cuts the broker off; an acknowledged one leaves it the live snapshot |
| VenueRecords.CutOffUntilReconciled | kavrigo-engine/services/paper-broker/src/kavrigo_paper/account.py:284-348 | a broker that is cut off stays so until it reconciles, whatever else happens, and submits nothing |
| VenueViews.ReconciliationDiscoversWhatWasMissed | kavrigo-engine/services/paper-broker/src/kavrigo_paper/account.py:330-348 | the discovered fills are exactly those missing from the previous copy, and the broker is current afterwards |
| BudgetSafety.CostCovers | kavrigo-engine/libs/model-gateway/src/kavrigo_model_gateway/contracts.py:118-124 | the tariff is the least whole number of units covering the exact price |
| BudgetSafety.CostIsMonotone | kavrigo-engine/libs/model-gateway/src/kavrigo_model_gateway/contracts.py:118-124 | usage within the token bounds never costs more than the reservation |
| BudgetSafety.ReserveIs | kavrigo-engine/libs/model-gateway/src/kavrigo_model_gateway/budget.py:88-150 | an admission passed every limit and adds one ticket charged once to each counter; anything else changes no ticket and no counter |
| BudgetSafety.AdmittedExactlyWithRoom | kavrigo-engine/libs/model-gateway/src/kavrigo_model_gateway/budget.py:99-150 | a new key is admitted exactly when every scope, the cycle and the capacity have room |
| BudgetRecords.AdmittedExactly | kavrigo-engine/libs/model-gateway/src/kavrigo_model_gateway/budget.py:99-150 | in any reachable ledger a new key is admitted exactly when fewer calls than allowed were admitted in the last minute, what the tickets cost leaves room in workspace, agent and decision, and the decision is the version's own and in time |
| BudgetRecords.RefusalGrounds | kavrigo-engine/libs/model-gateway/src/kavrigo_model_gateway/budget.py:96-138 | every refusal names a limit that was reached |
| BudgetRecords.AdmittedOnce | kavrigo-engine/libs/model-gateway/src/kavrigo_model_gateway/budget.py:96-104 | a key is admitted once: a later call charges nothing and gets the ticket with the first usage reported, or is refused while there is none or for another fingerprint |
| BudgetRecords.DecisionRunsOutOfTime | kavrigo-engine/libs/model-gateway/src/kavrigo_model_gateway/budget.py:109-121 | a later call of a decision is admitted exactly with room, for the first call's version and within the timeout counted from the first call, and has its deadline |
| BudgetRecords.RecordsStay | kavrigo-engine/libs/model-gateway/src/kavrigo_model_gateway/budget.py:165-184 | tickets and cycles stay as they were made, except that a ticket takes its usage from the first report |
| BudgetLedger.LocalBudgetLedger.Open | kavrigo-engine/libs/model-gateway/src/kavrigo_model_gateway/budget.py:73-86 | a ledger with nothing reserved, or the refusal of a capacity below one |
| BudgetLedger.LocalBudgetLedger.Charge | kavrigo-engine/libs/model-gateway/src/kavrigo_model_gateway/budget.py:144-147 | the loop counts a ticket once against each of its counters |
| BudgetLedger.LocalBudgetLedger.Adjust | kavrigo-engine/libs/model-gateway/src/kavrigo_model_gateway/budget.py:176-179 | the loop corrects each counter of a ticket by the same amount |
| BudgetLedger.LocalBudgetLedger.CheckScope | kavrigo-engine/libs/model-gateway/src/kavrigo_model_gateway/budget.py:123-134 | one scope's daily and per-minute checks with their pruning |
| BudgetLedger.LocalBudgetLedger.Prune | kavrigo-engine/libs/model-gateway/src/kavrigo_model_gateway/budget.py:129-131 | the loop drops admissions a minute old or older |
| BudgetLedger.LocalBudgetLedger.Admit | kavrigo-engine/libs/model-gateway/src/kavrigo_model_gateway/budget.py:139-150 | windows, counters, cycle and ticket of an admission |
| BudgetLedger.LocalBudgetLedger.Reserve | kavrigo-engine/libs/model-gateway/src/kavrigo_model_gateway/budget.py:88-150 | whole new ledger and result of a reservation on every path |
| BudgetLedger.LocalBudgetLedger.Finish | kavrigo-engine/libs/model-gateway/src/kavrigo_model_gateway/budget.py:165-184 | whole new ledger and result of a finalization |
| BudgetHistory.BudgetsAreKept | kavrigo-engine/libs/model-gateway/src/kavrigo_model_gateway/budget.py:96-150 | no half-open minute holds more admissions than allowed, every counter is the total of its tickets, no scope calls more than allowed |
| BudgetHistory.SpendingIsCapped | kavrigo-engine/libs/model-gateway/src/kavrigo_model_gateway/budget.py:122-138 | if no provider exceeds its reservation, no workspace, agent or decision spends beyond its cap |
| BudgetHistory.MeteredSpendingIsCapped | kavrigo-engine/libs/model-gateway/src/kavrigo_model_gateway/gateway.py:253-290 | with reservations and costs read off the tariff and token counts within their bounds, no workspace, agent or decision spends beyond its cap |
| BudgetWindows.ClosedMinuteIsBounded | kavrigo-engine/libs/model-gateway/src/kavrigo_model_gateway/budget.py:129-133 | after any run a closed minute holds what either half-open minute holds and what is exactly at its other end, at most twice the limit, and at most the limit when one end has no admission |
| BudgetWindows.ClosedMinuteAtAdmission | kavrigo-engine/libs/model-gateway/src/kavrigo_model_gateway/budget.py:129-148 | at an admission the closed minute ending with it is within the limit exactly when the pruned window and the admissions exactly a minute ago are together below it |
| BudgetWindows.ClosedMinuteCanHoldTwice | kavrigo-engine/libs/model-gateway/src/kavrigo_model_gateway/budget.py:129-133 | under every limit some run fills a closed minute with twice the limit |
| RunRepository.RunRepository.FinishStage | kavrigo-engine/services/workflows/src/kavrigo_workflows/runs.py:116-171 | a terminal row is written once, and only by the attempt that started it |
| RunRepository.RunRepository.ClaimDispatch | kavrigo-engine/services/workflows/src/kavrigo_workflows/runs.py:87-114 | the first claim starts the stage, a later one gets its receipt or declares it uncertain |
| RunRepository.RunRepository.FinishRun | kavrigo-engine/services/workflows/src/kavrigo_workflows/runs.py:173-246 | required stages, verdict and write-once receipt |
| RunHistory.FinishStageIs | kavrigo-engine/services/workflows/src/kavrigo_workflows/runs.py:116-171 | the reference returned is the one the row gives from then on; other rows stay |
| RunHistory.ClaimIs | kavrigo-engine/services/workflows/src/kavrigo_workflows/runs.py:87-114 | a claim answers nothing exactly when the stage had no row; a terminal row answers its own reference, and a started one is declared uncertain whoever claims it |
| RunHistory.ConcludeIs | kavrigo-engine/services/workflows/src/kavrigo_workflows/activities.py:141-204 | a stage concluded in one transaction is retained, and a retained one is returned |
| RunHistory.FinishRunIs | kavrigo-engine/services/workflows/src/kavrigo_workflows/runs.py:173-246 | a run closes once: completed exactly when everything listed completed, uncertain exactly when something is started or uncertain; completed only with every required stage or cycle |
| RunVerdicts.ConcludesExactly | kavrigo-engine/services/workflows/src/kavrigo_workflows/activities.py:102-204 | a stage without a row is concluded exactly when the job has it and, for execution, the evaluation completed, and the row is the one given; a stage with a row stays |
| RunVerdicts.ClosesExactly | kavrigo-engine/services/workflows/src/kavrigo_workflows/runs.py:173-246 | a run is closed exactly when the results of its kind are there, and its receipt lists every stage with status and output |
| RunWorkers.NextKeeps | kavrigo-engine/services/workflows/src/kavrigo_workflows/activities.py:206-239 | every step of any worker keeps the claim discipline and all receipts |
| RunWorkers.DispatchIsAtMostOnce | kavrigo-engine/services/workflows/src/kavrigo_workflows/activities.py:206-239 | for any workers: at most one runtime call, one reference per stage, immutable receipts, one final receipt, completed only with everything required |
| RunVerdicts.StatusIsReached | kavrigo-engine/services/workflows/src/kavrigo_workflows/activities.py:206-239 | the evaluate row becomes completed only by its holder's report after its call, refused only by its holder's declining or refused report, uncertain only by another worker's claim |
| RunVerdicts.CompletedMeansReported | kavrigo-engine/services/workflows/src/kavrigo_workflows/activities.py:206-239 | under any interleaving a completed evaluate row, and a completed receipt of an agent job, rests on a completion its holder reported after calling the runtime |
| RunVerdicts.ExecutionFollowsEvaluation | kavrigo-engine/services/workflows/src/kavrigo_workflows/activities.py:247-262 | execution was retained only after a completed evaluation, and only stages of the job's kind were |
| RunVerdicts.CompletedRunHasEverything | kavrigo-engine/services/workflows/src/kavrigo_workflows/runs.py:173-246 | a run that closed as completed has completed every stage its kind of job is made of |

## Left out

- Most context checks of an evaluation (freshness, data quality, evidence, kill switches, event windows)
  are two Boolean functions of request, portfolio, controls and time; the checks that identity, mode,
  instrument, order type, expiry, controls validity and lease rely on are written out.
- RiskEvaluator.EvaluateRequest: keeps the content of its reasons; the order among context reasons and
  duplicates in it are not modelled, and the checks above enter it as Boolean functions.
- Decimals outside `Fixed` are unit counts: the repeated reading of text at each use is not modelled, nor
  are exponent notation in `Fixed.Parse` and the currency labels of single prices.
- Order validation beyond fill totals and a positive average price: the order contract's other checks on
  construction are not part of this model.
- Identifiers derived from hashes (orders, fills, evaluations) are structured values; other hashes are
  function values. SHA-256, canonical JSON, copying, byte-size limits and registration, control and
  reservation fingerprints are not modelled.
- The guard of one book reads the risk clock once for all its commands; each operation of venue and
  repository takes its clock readings as parameters.
- The session's entries are kept as a list in intent order instead of a dictionary sorted on use, and
  holdings and working orders are values replaced in their map or list, so aliasing between two names of
  one holding or order is not captured.
- Database rows, row locks and rollback: a transaction is one step, its clock readings are monotone, and a
  refused transaction changes nothing. Several accounts side by side are left out.
- Run stages other than `evaluate` compute their output elsewhere; it enters as an arbitrary value.
- `RunModel.Conclude` and `ReportStage` have no imperative twin; they are the transactions of the activity
  layer, whose network and account calls are not modelled.
- Provider calls, replayed artifacts and call records of the model gateway; `record_for` only reads.
- The largest per-asset and per-network exposure is stated as a bound on every share, which is the same
  comparison without computing the maximum.
- AccountRepository.AccountRepository.Commit: makes its last expiry check before writing instead of after it
  and rolling back; either way nothing is kept. The outbox and the byte accounting are left out.
- AccountHistory.BookkeepersAgree: assumes that distinct requests hash apart; it is needed only where one
  idempotency key is used for two requests.
- Telemetry, asyncio, threading locks, Temporal, web and control-plane code, market parsing, features,
  portfolio allocation, backtesting and agent analysis.
