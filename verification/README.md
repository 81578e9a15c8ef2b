# PerpLab accounting core, modelled and proved in Dafny

This project models the parts of PerpLab whose correctness everything else rests on, and
proves properties of them over all inputs and all runs:

- **Margin and liquidation** (`Money`, `Margin`, `Liquidation`, `Convergence`, `Staircase`).
  Leverage bracket tables, the maintenance requirement as the maximum of the tier lines, and
  the bracket iteration as Newton's method on a concave function: convergence, uniqueness,
  an exact trigger, and an exact iteration bound.
- **The ledger** (`Positions`, `Ledger`, `LedgerInvariant`, `LedgerRuns`, `RunCounters`,
  `FillValue`, `FillTerms`, `FillRefusals`, `SettlementTerms`, `LogTerms`,
  `LiquidationSweep`, `MarginMoves`, `MarginRuns`, `OverdrawnRun`, `Account`). Each operation
  as a step on a value; the class `Account` updates fields in place and is proved to take
  exactly those steps. What each operation charges, moves, leaves and logs, and exactly when
  it is refused, in terms of what it was given; the conservation invariants, the replay of
  the event log and the value of a fill over every sequence of operations.
- **The round-trip builder** (`TradeBook`, `TradeBuilder`, `TradeLegs`, `Lockstep`,
  `Session`, `Driver`, `RoundTrips`, `SymbolPnl`). A second bookkeeping of the same money,
  driven in lockstep with the ledger and proved to agree with it; over every run what each
  trade prints is tied to its legs and the extremes it reports to its samples.
- **The risk layer** (`Exposure`, `ReduceOnly`, `Risk`, `RiskObjects`, `RiskRuns`, `RateLimit`,
  `RiskDesk`). The exposure bound over every order of fills, and exactly when reduce-only
  fills break it; runs that never exceed the ceiling, the rolling-minute limiter, and
  day and peak tracking under out-of-order samples.
- **Log comparison** (`Parity`, `ParityMatching`, `ParityObjects`). Two matchers that
  partition both logs, the windowed one refining a quadratic definition.
- **Dates, numbers, disk, funding** (`Numerals`, `Calendar`, `Scaled`, `CacheBudget`,
  `Funding`).

`Decimal` is modelled as `real`: the source computes in a 50-digit context to make its
operations exact, and rounds explicitly to eight decimals half-even where it rounds at all
(`Money.Quantize`). Products of reals go through `Money.Times`.

Where an object of the source changes its fields, a class does so here, and each method's
contract is the step function the theorems are about.

## What the proofs found

- The bracket iteration ends within as many passes as there are tiers, and needs them all:
  nine regular tiers can exhaust the eight the source allows (`Staircase`).
- The loop compares tier numbers, which no constructor requires to be unique. Two tiers
  sharing one make it stop at a price that is no root exactly when their rates differ.
- A short whose allocation cannot cover its entry notional is skipped by the liquidation
  check although it is insolvent at every mark; the check is exact for every
  other position. Funding alone can bring a run there.
- `remove_margin` probes a rounded allocation less the amount, the next check rounds the raw
  allocation less the amount. The two differ by the quantum the roundings carry between them:
  for amounts on the grid exactly on a tie with an odd number of quanta, and for amounts off
  it, which the method accepts, without any tie. An accepted removal is liquidated at the
  same mark exactly when the surplus probed was within that difference and no overdrawn short
  is left; `MarginRuns` has runs that end so, on the grid and off it.
- `add_margin` refuses a position with a negative allocation because, its comment says, the
  next check takes it in any case. A long in profit is refused and left alone; the check
  takes it exactly when its profit is at most the requirement and the overdraft.
- `projected_exposure` is documented as the largest |position| reachable over every order of
  fills. It is that for orders that are not reduce-only; with reduce-only orders it is
  exceeded exactly when the condition of `ReduceOnly.TheBoundIsExceededExactlyWhenOutreached`
  holds, and orders that all passed the check can take the position beyond its ceiling.
- The shadow counts of a parity report add up exactly when no name is matched twice, which
  numbered logs guarantee.
- `datetime_str_to_ms` refuses 0000-01-01 to 0000-02-28, which are dates: the inverse it
  checks against slips a day before 0000-03-01. It reads clock digits of any script, so
  that texts which differ in nothing else collide.
- A cached file whose `.json` sidecar cannot be deleted goes, and stays in the total the
  eviction loop works with: the loop can evict more than it must, and refuse what would fit.
- A failed cache reservation rolls the registry back, but the files it deleted stay deleted;
  the budget is kept all the same.

## Assumptions

- `Margin.Regular`: floors start at 0, amounts continue the lines, rates do not fall, and
  tiers that share a number share a rate. The source documents continuity of `cum` but its
  constructor checks only order and contiguity (`Margin.CheckTable`). `Staircase` has a
  regular table of every size.
- A ledger operation that raises leaves the ledger where the source leaves it. In the driver
  a violated invariant or a failed solve ends the run; any other refusal is carried on from.
- ACCOUNTING_NOTES and older comments mention a `margin_exhausted` path; the code has none,
  and the model follows the code.

## Model

| member | source | states |
|---|---|---|
| Money.HalfEvenIsTheNearest | perplab/core/money.py:386-401 | half-even rounding is the nearest integer, and on a tie the even one: both directions, for every real |
| Money.QuantizeError | perplab/core/money.py:404-425 | a quantised amount lies on the 8-decimal grid, within half a quantum of the amount |
| Money.QuantizeMonotone | perplab/core/money.py:386-401 | quantising keeps order |
| Money.QuantizeOdd | perplab/core/money.py:386-401 | quantising commutes with negation: longs and shorts round alike |
| Money.QuantizeFixpoint | perplab/core/money.py:404-425 | exactly the amounts on the grid are left alone |
| Money.QuantizeShift | perplab/core/money.py:386-401 | rounding commutes with a shift of k quanta exactly when the amount is no tie or k is even |
| Money.QuantizeTwice | perplab/core/account.py:1579-1594 | rounding before and after taking a grid amount away agrees with rounding once, exactly when the amount is no tie or the shift is even |
| Money.OddShiftOfATie | perplab/core/money.py:386-401 | an odd number of quanta takes a tie up by one quantum against the moved rounding, or down by one, as the lower neighbour is even or odd |
| Money.RoundingGapIsExact | perplab/core/account.py:1579-1594 | for every amount, on the grid or off it: rounding, taking the amount away and rounding again differs from taking it away first by exactly the quantum the two roundings carry between them, up or down, when their errors are more than half a quantum apart, or half a quantum where what is left is odd |
| Margin.CheckTable | perplab/core/margin.py:119-152 | the constructor's loop accepts exactly the non-empty tables sorted by floor with neither gap nor overlap |
| Margin.Resolve | perplab/core/margin.py:154-184 | the first tier whose cap the notional does not exceed, the last one beyond the table |
| Margin.ResolveMonotone | perplab/core/margin.py:154-184 | a larger notional never resolves to a lower tier |
| Margin.RequirementIsTheGreatestLine | perplab/core/margin.py:387-403 | on a regular table the maintenance margin of the resolved tier is the maximum of all the tier lines, and positive for a positive notional |
| Liquidation.LiquidationPrice | perplab/core/margin.py:446-514 | the bounded loop, with every refusal, against the specification function the theorems are about |
| Liquidation.AnswersSettle | perplab/core/margin.py:480-508 | on any table an answer is the closed-form price of its tier, and a positive one stands on the table in a tier of the same number |
| Liquidation.SolveRefusesExactly | perplab/core/margin.py:446-480 | the solve refuses a flat position and a mark that is not positive, and nothing else, as such |
| Liquidation.TierSurplusSign | perplab/core/margin.py:484-496 | the closed-form price of a tier is where that tier's surplus vanishes, and the mark has crossed it exactly when the surplus is not positive |
| Liquidation.SurplusIsTheLeastTierSurplus | perplab/core/margin.py:387-403 | the surplus over the requirement is the least of the tiers' surpluses: a concave function of the mark |
| Liquidation.SurplusIsStrictlyMonotone | perplab/core/margin.py:446-514 | the surplus strictly improves as the mark moves the position's way |
| Convergence.OneStep | perplab/core/margin.py:480-508 | one pass from a mark: the mark has triggered exactly when it has crossed the price solved for, and at that price the surplus is not positive (Newton's step on a concave function) |
| Convergence.PricesMoveOneWay | perplab/core/margin.py:480-508 | after the first step no tier is visited twice: the solved prices move one way and each iteration uses up a tier |
| Convergence.ConvergesWithinTheNumberOfTiers | perplab/core/margin.py:480-514 | the iteration ends within as many passes as there are tiers, from any mark |
| Convergence.SolveConverges | perplab/core/margin.py:446-514 | on a regular table of at most eight tiers the solve never raises |
| Staircase.TheIterationBoundIsExact | perplab/core/margin.py:480-514 | for every n there is a regular table of n tiers that any smaller bound fails on, so nine tiers can raise BracketConvergenceError although the root exists |
| Convergence.SharedTierNumbersStopTheSolveEarly | perplab/core/margin.py:496-508 | for any two tiers of one number and different rates: the position and the mark at which the loop stops after one pass, at a price where the position is already short of its requirement |
| Convergence.SolvesAreExactExactlyWhenNumbersTellTheRates | perplab/core/margin.py:446-514 | on a table continuous and non-decreasing in rates every solve is exact, for every position and mark, if and only if tiers that share a number share a rate |
| Convergence.RootIsUnique | perplab/core/margin.py:446-514 | at most one mark has a given surplus |
| Convergence.TriggerIsExact | perplab/core/account.py:1298-1305 | a position triggers exactly when its balance is at or below the requirement of the tier at the current mark, an overdrawn short excepted |
| Convergence.SolvedPriceIsTheUniqueRoot | perplab/core/margin.py:480-508 | a positive solved price is the unique root; it lies in the tier that produced it, or, where tiers share a number, in one that charges the same there |
| Convergence.UnreachableMeans | perplab/core/margin.py:430-443 | a short is reported unreachable exactly when it is overdrawn; a long only when it is solvent at the current mark |
| Convergence.OverdrawnShortHasNoRoot | perplab/core/account.py:1300-1301 | an overdrawn short, which the check skips, is insolvent at every mark |
| OverdrawnRun.FundingAloneOverdrawsAShort | perplab/core/account.py:1162-1230 | a sale and one funding payment, run on any one-way account without margin enforcement, filters or required brackets, leave an overdrawn short |
| Convergence.LongReachability | perplab/core/margin.py:480-502 | a long is reported reachable exactly when the tier at the current mark solves above zero |
| Convergence.OrderingNeverFails | perplab/core/account.py:1336-1345 | invariant I7 never fires from a solve on a regular table |
| Convergence.PriceIsMonotoneInTheMargin | perplab/core/margin.py:484-496 | more margin never moves the solved price toward the position |
| MarginMoves.AddedMarginMovesThePriceAway | perplab/core/account.py:1470-1536 | an accepted `add_margin` only moves the liquidation price away |
| MarginMoves.FundingMovesThePrice | perplab/core/account.py:1199-1212 | a funding payment only moves the liquidation price adversely, a receipt only away |
| LedgerInvariant.BookedQuantity | perplab/core/account.py:985-1055 | whichever of the three cases applies, the side ends at its quantity plus the signed fill, and has an entry price exactly when it is not flat |
| LedgerInvariant.CheckWalletKeeps | perplab/core/account.py:1755-1781 | of the wallet checks only I5 can fire, exactly on a solvent wallet turned negative with no liquidation |
| LedgerInvariant.RecoveryIsWithinTheRemainder | perplab/core/account.py:1403-1422 | recovery is between nothing and the whole remaining balance |
| LedgerInvariant.LiquidationNeverCostsMoreThanTheAllocation | perplab/core/account.py:1403-1432 | a liquidation never costs more than the allocation; without its penalty it is the price move capped at the allocation; the penalty is never a gain |
| LedgerRuns.StepKeeps | perplab/core/account.py:888-1101 | every operation keeps the class invariant and raises none of I1-I4 and I9 |
| LedgerRuns.EveryRunKeepsTheInvariant | perplab/core/account.py:1783-1803 | over every sequence of operations in either mode: I1, per-side I3, I4, I8, shared leverage, the log reproducing the ledger |
| LedgerRuns.NoConservationCheckEverFires | perplab/core/invariants.py:64-178 | no step of any run raises I1, I2, I3, I4 or I9 |
| LedgerRuns.ReconcileNeverRaises | perplab/core/account.py:1821-1898 | replaying the event log of any run reproduces wallet, totals and every position, so `reconcile` never raises |
| LedgerRuns.HedgeLegsKeepTheirSign | perplab/core/account.py:237-258 | in every run hedge legs keep their sign, one-way slots are BOTH, legs of one symbol share a leverage |
| Account.Account.constructor | perplab/core/account.py:627-636 | a new account is the opened ledger and satisfies the invariant |
| Account.Account.AllocatedMargin | perplab/core/account.py:665-667 | the loop sums the reserved margins |
| Account.Account.Equity | perplab/core/account.py:639-662 | wallet plus unrealised PnL, each position at its own mark or entry |
| Account.Account.CheckEquity | perplab/core/invariants.py:100-132 | the two sums of I2 are never apart: it fires exactly on a position that is flat |
| Account.Account.Cases | perplab/core/account.py:985-1055 | the three cases branch by branch |
| Account.Account.RequireMargin | perplab/core/account.py:1680-1724 | tier limit, solvency, then available balance |
| Account.Account.ApplyFill | perplab/core/account.py:888-1101 | the whole fill updates the fields as its specification step does and keeps the invariant, whether accepted or refused; what the step charges, leaves and refuses is proved in `FillTerms` and `FillRefusals` |
| Account.Account.ApplyFunding | perplab/core/account.py:1162-1230 | every open side settles on its own quantity; returns the cashflow per side; the amounts are proved in `SettlementTerms` |
| Account.Account.UpdateMark | perplab/core/account.py:847-886 | records a mark, checks I2, logs the open sides |
| Account.Account.SolveFor | perplab/core/account.py:1311-1345 | the solve with the I7 check restricted to solvent positions |
| Account.Account.Liquidate | perplab/core/account.py:1347-1466 | close at the mark, recover the configured fraction, forfeit the rest, and its checks; the amounts are proved in `SettlementTerms` |
| Account.Account.CheckLiquidations | perplab/core/account.py:1270-1309 | the loop over the sides, stopping where one raises; on what allocation each is solved is `FillTerms.AllocationIsTheShareOfTheNotional` |
| Account.Account.AddMargin | perplab/core/account.py:1470-1536 | refusals in order, then the transfer |
| Account.Account.RemoveMargin | perplab/core/account.py:1538-1622 | refusals in order, the liquidation probe, then the transfer |
| Account.Account.SetLeverage | perplab/core/account.py:804-833 | refused while a side is open or above every tier |
| Account.Account.Reconcile | perplab/core/account.py:1821-1898 | the replay loop and the comparisons: returns without raising on every valid account |
| Account.Account.Attribution | perplab/core/account.py:1900-1943 | price + funding - fees + liquidation cost is the net PnL, and the liquidation cost is never positive |
| FillValue.FillChangesEquityByItsFee | perplab/core/account.py:985-1071 | a fill changes equity valued at its price by exactly -fee when it reduces or flips, and within 5e-9 times the new size when it increases |
| FillValue.FillMovesAvailableByItsRequirement | perplab/core/account.py:1680-1724 | an accepted fill changes the available balance by exactly minus the requirement |
| FillValue.EnforcedMarginIsEnforced | perplab/core/account.py:1680-1724 | with margin enforced an accepted fill leaves the available balance at or above min(previous, 0) and never takes a non-negative wallet negative |
| FillValue.RefusedFillMovesOnlyTheClock | perplab/core/account.py:964-1070 | a fill refused for margin, hedge direction or a missing table leaves everything but the clock unchanged |
| FillTerms.AllocationIsTheShareOfTheNotional | perplab/core/margin.py:365-384 | for every position: leverage times the allocation, less added margin and funding, is quantity times entry price, to a quantum per unit of leverage |
| FillTerms.WhatIsNotAvailableIsReserved | perplab/core/account.py:665-681 | the available balance is the wallet less the sum of the allocations that are positive |
| FillTerms.OpeningTiesUpItsShare | perplab/core/account.py:1680-1724 | an accepted fill from flat takes its fee and its notional's share at the configured leverage off the available balance, to half a quantum per unit of leverage |
| FillTerms.OpeningAfterALeverageChange | perplab/core/account.py:804-833 | over every run: the same at the leverage of the last accepted change, whatever came in between |
| FillTerms.AcceptedFillPaysItsFee | perplab/core/account.py:988-998 | the fee of an accepted fill is the one given, or the notional at the maker's or the taker's rate, to half a quantum; it and the realised PnL are all that moves the wallet |
| FillTerms.FillReachesItsSide | perplab/core/account.py:684-713 | an accepted fill moves the leg it names in hedge mode, the one slot otherwise, by its own quantity, and no other position |
| FillTerms.WrongSideExactly | perplab/core/account.py:684-713 | a fill is turned away for its side exactly when it is well formed and no slot of this position mode is meant by it |
| FillTerms.AcceptedFillLeaves | perplab/core/account.py:1000-1071 | what an accepted fill leaves, case by case: quantity, entry price, leverage, added margin and funding, and what it realised; on a reduction the last two in proportion to the quantity |
| FillTerms.FlipIsRefusedExactly | perplab/core/account.py:1119-1140 | a fill is refused as a flip exactly when it would open a hedge leg against its side or take it across zero |
| FillRefusals.FiltersExactly | perplab/core/invariants.py:194-215 | tick and step refuse exactly a price that is no whole number of ticks or a size that is none of steps |
| FillRefusals.FillIsAcceptedExactly | perplab/core/account.py:930-1101 | without margin enforcement a fill is accepted if and only if it is well formed, not stale, on the filters, has the table it must have, crosses no hedge leg, keeps a positive entry price and does not take a wallet below zero |
| FillRefusals.EnforcementRefusesExactlyWhatOverdraws | perplab/core/account.py:1680-1724 | enforcing margin refuses, of the fills that would otherwise go through, exactly those that leave less available than there was and less than nothing, take the wallet below zero, or stand in a tier that does not take them; the others go through unchanged |
| FillRefusals.EnforcementAcceptsNothingMore | perplab/core/account.py:1680-1724 | what is accepted with enforcement is accepted without it, with the same result |
| SettlementTerms.AcceptedFundingSettles | perplab/core/account.py:1162-1230 | at the mark given, or the recorded one: the wallet moves by minus the rate on the symbol's net signed quantity at that mark, each open side's result and funding by its own term, and nothing else moves |
| SettlementTerms.FundingIsAcceptedExactly | perplab/core/account.py:1162-1230 | a settlement is accepted if and only if it is not stale and the symbol is flat, or a mark that is not negative is given or recorded and the wallet can pay |
| SettlementTerms.CheckedLiquidationsCloseOut | perplab/core/account.py:1347-1466 | each result of a check: closed at the recorded mark, recovered is the configured fraction of what the close leaves of the allocation, to half a quantum; with fraction 0 the allocation is lost, with 1 the price move capped at it; the results together are all that moved |
| SettlementTerms.OrderingIsRefusedExactly | perplab/core/account.py:1311-1345 | I7 on any table: a strict account refuses a solve exactly when its positive price is out of order with the entry and the price at which nothing is left, while the allocation is above the tier's requirement at the entry |
| SettlementTerms.AdditionIsAcceptedExactly | perplab/core/account.py:1470-1536 | `add_margin` is accepted if and only if the amount is positive, not stale, the side is open, and with enforcement available and the allocation not below zero; then only the added margin of that position changes |
| SettlementTerms.RemovalIsAcceptedExactly | perplab/core/account.py:1538-1622 | the same for `remove_margin`: no more than was added, and nothing the probe finds against it |
| SettlementTerms.TransfersMoveTheAvailableBalance | perplab/core/account.py:1470-1622 | a transfer of an allocation that is not below zero before or after moves the available balance by its amount, to a quantum |
| SettlementTerms.LeverageIsAcceptedExactly | perplab/core/account.py:804-833 | a leverage is accepted if and only if the symbol is flat and some tier of its table, if it has one, allows it |
| SettlementTerms.MarkIsAcceptedExactly | perplab/core/account.py:847-886 | a mark is accepted if and only if it is positive and not stale, and moves neither money nor positions |
| RunCounters.TheClockIsTheLatestStamp | perplab/core/account.py:1805-1814 | over every run the clock is at the stamp of one of its operations, and no accepted one is later |
| RunCounters.AcceptedStampsNeverGoBack | perplab/core/account.py:1805-1814 | on a strict account the stamps of accepted operations never go back |
| RunCounters.StaleOnlyAfterALaterStamp | perplab/core/account.py:1805-1814 | an operation is turned away as stale only after one with a later stamp |
| RunCounters.EveryRunCounts | perplab/core/account.py:1755-1781 | over every run the liquidation count is that of the log, and the flag that exempts from I5 is up only on a strict account whose wallet is below zero |
| LogTerms.FillIsLogged | perplab/core/account.py:1078-1092 | an accepted fill writes one event: the fill, what it realised and paid, and the wallet, quantity and entry price after it |
| LogTerms.FundingIsLogged | perplab/core/account.py:1213-1226 | a settlement writes one event a side, in order, with its own cashflow and the wallet so far |
| LogTerms.LiquidationsAreLogged | perplab/core/account.py:1437-1454 | a check writes one event for each result, in the order made, at its trigger price with the wallet so far |
| LogTerms.MarkIsLogged | perplab/core/account.py:847-886 | with mark logging on, one event for each open side of the symbol, or one for a flat symbol; nothing otherwise |
| LogTerms.AdditionIsLogged | perplab/core/account.py:1518-1536 | an added margin writes one event with the amount as its price |
| LogTerms.RemovalIsLogged | perplab/core/account.py:1604-1622 | and a removed one likewise |
| LogTerms.ReconcileAcceptsExactly | perplab/core/account.py:1821-1898 | on any ledger, reached by a run or not, `reconcile` raises if and only if the totals are not the sums over the log or some position is not what the log traded in its slot |
| LiquidationSweep.CheckLiquidationsClearsTheDue | perplab/core/account.py:1289-1309 | every due side is liquidated once, the rest are unchanged, and the wallet moves by the sum of recovered minus allocation |
| LiquidationSweep.VisitingOrderDoesNotMatter | perplab/core/account.py:1289-1309 | any two visiting orders leave the same money and positions |
| LiquidationSweep.SecondCheckDoesNothing | perplab/core/account.py:1289-1309 | a second check at the same marks liquidates nothing |
| MarginMoves.ShrinkTestIsExact | perplab/core/account.py:1579-1594 | for every amount: the probe of `remove_margin` sees one quantum more or less than the next solve, or the same, and exactly when it is which |
| MarginMoves.ShrinkTestOnTheGrid | perplab/core/account.py:1579-1594 | for an amount on the grid they see the same exactly when the raw allocation is no tie or the amount an even number of quanta |
| MarginMoves.RemovedMarginIsNotLiquidatedAtOnce | perplab/core/account.py:1576-1602 | on any bracket table, an accepted removal for which probe and next solve see the same is never followed by a liquidation at the same mark |
| MarginMoves.RemovalTriggersExactlyWithinTheGap | perplab/core/account.py:1579-1602 | on regular tables, an untriggered probe of any amount is followed by a trigger at the same mark if and only if the surplus probed was at most what was probed too much and what is left is no overdrawn short |
| MarginMoves.TwoWaysToTrigger | perplab/core/account.py:1579-1602 | so it happens in two ways and no others: a quantum less is left than the at most one of surplus, or a quantum more takes an overdrawn short back within reach of the solve |
| MarginMoves.RemovedMarginIsLiquidatedAtOnceExactlyWithinTheGap | perplab/core/account.py:1538-1622 | `remove_margin` followed by the visit of the next liquidation check: an accepted removal of any amount is liquidated at the same mark if and only if that condition holds |
| MarginRuns.AcceptedRemovalIsLiquidatedAtOnce | perplab/core/account.py:1564-1602 | on every one-way account of at least 1000 that enforces margin, with one tier for its symbol: a run that buys, adds 0.6 of a quantum, has a removal of 0.2 accepted, and is liquidated by the check after it at the same mark |
| MarginRuns.AcceptedQuantumIsLiquidatedAtOnce | perplab/core/account.py:1564-1602 | the same for a removal of one whole quantum, off a tie left by a funding payment |
| MarginMoves.OddRemovalOnATie | perplab/core/account.py:1579-1594 | on a tie an odd number of quanta leaves one quantum more than was probed when the tie rounded down, one less when it rounded up |
| MarginMoves.RefusedOverdraftIsTakenExactlyWhenItsProfitFallsShort | perplab/core/account.py:1498-1517 | `add_margin` refuses a position whose allocation is below zero; the next check takes it if and only if its profit is at most the requirement and the overdraft together and it is no overdrawn short |
| MarginRuns.OverdrawnLongInProfitIsRefusedAndLeftAlone | perplab/core/account.py:1508-1517 | on every such account, a run in which a long in profit is drained below zero by funding, is refused margin, and is left alone by the next check |
| MarginMoves.GridIsNoTie | perplab/core/account.py:289-317 | an allocation whose added margin and funding are on the grid is no tie |
| TradeBook.SplitFeeIsConserved | perplab/analytics/trades.py:281-299 | the split fee of a flip is conserved, on the grid, and neither half negative |
| TradeBook.SnapshotIsWhatFinishWouldReturn | perplab/analytics/trades.py:391-417 | `snapshot` shows exactly the trades `finish` would leave |
| TradeLegs.EveryTradeIsItsLegs | perplab/analytics/trades.py:244-530 | over every sequence of calls on the builder: each open record is the sum of its legs, and each finished trade prints its side and reason, the average entry and exit price of its own legs, to half a quantum, their sums, their count, the greatest size, the first and last stamp, and the outermost prices it has been at |
| TradeLegs.EveryTradeOfARunIsItsLegs | perplab/engine/backtest.py:2073-2310 | over every run of ledger and builder: the same of the fills, cashflows and liquidations the ledger accepted |
| TradeLegs.ClosingFeeIsItsShare | perplab/analytics/trades.py:244-530 | the fee of a fill that crosses zero is split by quantity, to half a quantum |
| TradeBuilding.TradeBuilder.Fill | perplab/analytics/trades.py:244-306 | opening, increasing, reducing, closing and flipping on the record objects, as the specification step does |
| TradeBuilding.TradeBuilder.Liquidation | perplab/analytics/trades.py:308-332 | closes the one side's record |
| TradeBuilding.TradeBuilder.Funding | perplab/analytics/trades.py:334-345 | adds the cashflow to the one side's record |
| TradeBuilding.OpenTrade.Mark | perplab/analytics/trades.py:369-389 | the excursion extremes from one mark |
| TradeBuilding.TradeBuilder.Mark | perplab/analytics/trades.py:347-389 | one side's extremes and last unrealised PnL |
| TradeBuilding.TradeBuilder.FinishAll | perplab/analytics/trades.py:391-396 | pops and renders every open record |
| TradeBuilding.TradeBuilder.Snapshot | perplab/analytics/trades.py:398-417 | renders what `FinishAll` would leave and changes nothing |
| TradeBuilding.TradeBuilder.NetPnlBySymbol | perplab/analytics/trades.py:419-441 | the loop against the function the sums below are proved of |
| Session.EveryRunStaysInStep | perplab/engine/backtest.py:3655-3745 | after every step of every run that has not aborted, ledger and builder agree |
| Session.TheTwoBookkeepingsAgree | perplab/analytics/trades.py:211-306 | open trades are exactly the open positions, each holds the position's quantity, and the trades' net PnL is what the wallet has moved by, flips included |
| Driver.Engine.Fill | perplab/engine/backtest.py:3660-3745 | the account object answers the fill, then the builder object is given the quantities before and after |
| Driver.Engine.Fund | perplab/engine/backtest.py:2273-2288 | each side's cashflow, unless zero, reaches its own round-trip |
| Driver.Engine.Liquidate | perplab/engine/backtest.py:2073-2087 | each liquidation reaches its own round-trip |
| Driver.Engine.SampleMarks | perplab/engine/backtest.py:3900-3925 | every open side is sampled at the low and the high its mark traversed, then at the mark |
| Driver.FillIsAStep | perplab/engine/backtest.py:3660-3745 | a fill through the objects is a step of the session, so the two books still agree |
| Driver.FundingIsAStep | perplab/engine/backtest.py:2273-2288 | and so is a funding settlement |
| Driver.LiquidationIsAStep | perplab/engine/backtest.py:2073-2087 | and so is a liquidation check |
| RoundTrips.FlatToFlatRealisesTheNotionals | perplab/analytics/trades.py:244-306 | in every run of ledger and builder: each trade that fills closed, by a flip or not, realised its signed closing less opening notional, and each open one that plus the cost still held, within 5e-9 times the summed sizes its increases left |
| RoundTrips.ExcursionsAreTheExtremesSampled | perplab/analytics/trades.py:347-389 | in every run each finished trade's worst and best points are the least and the greatest of the running totals sampled over its life and the one it ended on |
| SymbolPnl.EachSymbolIsItsTrades | perplab/analytics/trades.py:419-441 | each symbol's figure is its closed trades plus its open ones at their last mark |
| SymbolPnl.SymbolsSumToTheBook | perplab/analytics/trades.py:419-441 | summed across symbols the figures are the net PnL of all trades plus the unrealised |
| SymbolPnl.SampledSymbolsSumToTheAccountPnl | perplab/analytics/trades.py:419-441 | right after a mark sample they sum to equity less the opening balance |
| Exposure.WorkingExposure | perplab/core/risk.py:1446-1460 | the fold, reduce-only and spent orders dropped |
| Exposure.ProjectedExposureIsTheLeastUpperBound | perplab/core/risk.py:490-503 | no interleaving of partial fills takes the absolute position beyond the projected exposure, and one attains it |
| Exposure.LegFillKeepsTheBound | perplab/core/risk.py:506-531 | a hedge leg's one-term bound never grows under a fill, growing or shrinking, reduce-only or not |
| Exposure.LegCanFillExactly | perplab/core/risk.py:534-557 | the fills of a hedge leg: no more than is outstanding, never across zero, reduce-only orders only against the leg |
| ReduceOnly.ReachedPositionsLieBetweenTheEnds | perplab/engine/backtest.py:3532-3566 | when reduce-only orders fill too, against the position and never past zero, every position reached lies between two ends given outright, and both are reached |
| ReduceOnly.TheBoundIsExceededExactlyWhenOutreached | perplab/core/risk.py:490-503 | some order of fills takes the absolute position beyond `projected_exposure` if and only if the far side's orders, with the reduce-only ones that may close the position, outreach twice the position and its own side's orders: long or short |
| ReduceOnly.WhenAReduceOnlyCloseRaisesTheBound | perplab/core/risk.py:490-503 | a single reduce-only close, of a long or a short, raises the one-way bound exactly when the far side's orders reach further past zero than its own side's reach on |
| ReduceOnly.ReduceOnlyFillsCanExceedTheBound | perplab/core/risk.py:490-503 | long 10, working sell 12, reduce-only sell 10: bounded by 10, and the two fills, taken as steps, end short 12; and the short mirror |
| RiskDesk.NoReachedPositionExceedsTheCeiling | perplab/core/risk.py:782-814 | in every run checked at one price in which no reduce-only order fills, no reached position exceeds `max_position_notional` |
| RiskDesk.ReduceOnlyFillsExceedTheCeilingExactly | perplab/core/risk.py:745-814 | from whatever such a run has reached, some order of fills with the reduce-only ones among them exceeds the ceiling if and only if the farther of the two ends is beyond it, and only where the bound is outreached |
| RiskDesk.CheckedOrdersCanExceedTheCeiling | perplab/core/risk.py:745-814 | a run whose orders all pass the check under a ceiling of 1000, and from which fills go short 12 at 100 |
| RiskDesk.NoReachedHedgeExceedsTheCeiling | perplab/core/risk.py:534-557 | in hedge mode the two legs summed stay within the ceiling, reduce-only fills and shrinking included |
| RiskObjects.KillSwitch.Trip | perplab/core/risk.py:594-606 | first trigger wins |
| RiskObjects.RiskEngine.CheckRate | perplab/core/risk.py:854-884 | prunes the window from the front, refuses at the limit |
| RiskObjects.RiskEngine.CheckOrder | perplab/core/risk.py:695-852 | the checks in the source's order, with what each leaves in the engine |
| RiskObjects.RiskEngine.RollDay | perplab/core/risk.py:975-1021 | day key, baseline and last sample |
| RiskObjects.RiskEngine.ObserveEquity | perplab/core/risk.py:898-973 | day roll, peak, then the three limits; when each is met, in the samples' own terms, is `RiskRuns.MeetsIsWhatTheEngineSees` |
| RiskObjects.RiskEngine.Halt | perplab/core/risk.py:1258-1273 | records the first halt and trips the switch |
| RiskObjects.RiskEngine.RecentSubmissions | perplab/core/risk.py:1396-1398 | the count of `usage` |
| RiskRuns.AHaltIsForGood | perplab/core/risk.py:1258-1273 | once halted, no operation changes the halt record or the kill switch, and every order is refused |
| RiskRuns.TriggersHalt | perplab/core/risk.py:1258-1284 | any other trigger halts a run that is not halted: its breach is the record, and the switch keeps the first trigger it tripped on |
| RiskRuns.TheFirstBreachesAreKept | perplab/core/risk.py:1275-1289 | the record is the first thousand breaches, the rest are counted, refusals are counted whether kept or not |
| RiskRuns.SamplesAreTracked | perplab/core/risk.py:975-1021 | whatever the arrival order: the peak is the greatest crest, the day the latest seen, the baseline the latest-by-timestamp sample before the arrival that advanced the day |
| RiskRuns.DayNeverGoesBack | perplab/core/risk.py:1010-1021 | over any run the day key, once set, never goes back |
| RiskRuns.TrackedFiguresDecide | perplab/core/risk.py:922-973 | after any samples the day's loss and the drawdown, in the samples' own terms, are what the tracked baseline and peak say |
| RiskRuns.MeetsIsWhatTheEngineSees | perplab/core/risk.py:925-973 | the check finds the floor exactly when the equity is at most its fraction of the starting equity; the day's loss exactly when it is not at the floor and the day's baseline less the equity is at least its fraction; the drawdown exactly when it is neither and the fall from a positive peak is at least its fraction of the peak |
| RiskRuns.HaltsAtTheFirstLimitMet | perplab/core/risk.py:922-973 | with no other trigger the run halts at the first sample meeting an equity limit, on that limit, and not before |
| RateLimit.UsageCountsThePrunedWindow | perplab/core/risk.py:1396-1398 | on ascending stamps the non-mutating count sees exactly what pruning would leave |
| RateLimit.AcceptanceIsWithinTheRate | perplab/core/risk.py:854-894 | whenever an order that is not reduce-only is accepted, the minute ending at it holds at most the limit, reduce-only submissions included |
| RateLimit.NoMinuteExceedsTheRate | perplab/core/risk.py:854-863 | without reduce-only orders no rolling minute ever holds more than the limit |
| RateLimit.AcceptedExactlyWithinEveryLimit | perplab/core/risk.py:730-852 | a reduce-only order always passes while running; any other exactly when rate, open orders, notional and leverage are all within their limits |
| Parity.ReadFills | perplab/analytics/parity.py:769-882 | accepts exactly the forward-running, positively priced logs, numbers each order's increments, and makes every identity unique |
| Parity.RecordCarriesItsLine | perplab/analytics/parity.py:818-882 | a record carries the fields of its line, numbered by the earlier lines of its order |
| Parity.NumberedNamesAreUnique | perplab/analytics/parity.py:870-872 | numbering makes identities unique within a log |
| Parity.NamedAlikeExactly | perplab/analytics/parity.py:216-278 | two fills are named alike exactly when both carry one order id, at one increment |
| Parity.ChosenExactlyWhenMutual | perplab/analytics/parity.py:722-766 | the pairs taken are exactly those that are each other's only candidate under the quadratic definition |
| Parity.NothingIsTakenTwice | perplab/analytics/parity.py:756-766 | no shadow fill is taken by two paper fills |
| Parity.DeviationIsAgainstTheTrader | perplab/analytics/parity.py:704-719 | a pair's deviation times the paper price is ten thousand times what the shadow fill cost the trader more: positive for a dearer purchase or a cheaper sale |
| Parity.FiguresAreSums | perplab/analytics/parity.py:704-719 | the running figures are the sum of the pairs' deviations and of their sizes |
| Parity.RivalsExactly | perplab/analytics/parity.py:740-760 | two fills are rivals exactly when symbol, side and quantity agree and they are at most two seconds apart |
| ParityObjects.FillComparison.Score | perplab/analytics/parity.py:704-719 | the running figures are those of the pairs scored |
| ParityObjects.ScanWindow | perplab/analytics/parity.py:748-754 | scanning one window finds all rivals and claims each once |
| ParityObjects.FindCandidates | perplab/analytics/parity.py:740-754 | the two-pointer scan computes the candidate lists and claim counts of the quadratic definition |
| ParityObjects.MatchUnnamed | perplab/analytics/parity.py:722-766 | the fallback matcher's pairs and unmatched fills |
| ParityObjects.IndexShadow | perplab/analytics/parity.py:645-668 | the index of the shadow log, duplicates set aside |
| ParityObjects.MatchNamed | perplab/analytics/parity.py:670-685 | the paper pass against the index |
| ParityObjects.CompareFills | perplab/analytics/parity.py:626-697 | the whole comparison, with its lists in order |
| ParityObjects.CompareLogs | perplab/analytics/parity.py:626-697 | on logs as they are read, each fill of either log is counted once, as half a pair or on its unmatched list |
| ParityMatching.IndexHoldsTheFirst | perplab/analytics/parity.py:649-668 | the index has exactly the names of the shadow log, each with the first fill of that name |
| ParityMatching.ChronologicalKeeps | perplab/analytics/parity.py:692-701 | sorting the unmatched lists orders them and loses nothing |
| ParityMatching.PaperIsAccountedFor | perplab/analytics/parity.py:645-697 | the paper log is partitioned into pairs and paper-only |
| ParityMatching.ShadowIsAccountedFor | perplab/analytics/parity.py:645-697 | the shadow log is partitioned into pairs and shadow-only when no name is matched twice |
| ParityMatching.ShadowCountsAgreeExactlyWhenMatchedOnce | perplab/analytics/parity.py:670-691 | the shadow counts add up exactly when no name is matched by two paper fills |
| ParityMatching.UniqueNamesMatchOnce | perplab/analytics/parity.py:870-872 | which numbered logs guarantee |
| ParityMatching.EveryPairIsBelieved | perplab/analytics/parity.py:676-685 | a pair shares name and order, or is unnamed and mutually unique |
| Calendar.FormulaCountsTheDays | perplab/data/bulk_layout.py:241-248 | for every year from 0 on the formula is the day count by leap years and month lengths |
| Calendar.FormulaFailsBeforeYearZero | perplab/data/bulk_layout.py:244 | under floor division the formula is a day short of the calendar for every March year below 0 but the last of each era, and exact for every other date |
| Calendar.NextIsOneDayLater | perplab/data/bulk_layout.py:241-248 | consecutive dates differ by one day |
| Calendar.CivilInvertsDays | perplab/data/schemas.py:448-465 | civil-from-days gives the date back from 0000-03-01 on |
| Calendar.CivilSlipsBeforeTheFirstMarch | perplab/data/schemas.py:448-465 | before 0000-03-01 it gives the following day, except on the last of February |
| Calendar.RoundTripExactlyOnDates | perplab/data/bulk_layout.py:250-252 | the round trip succeeds exactly on the dates of the calendar, 0000-01-01 to 0000-02-28 excepted |
| Calendar.AcceptedExactlyWhenReal | perplab/data/bulk_layout.py:207-253 | a text in ASCII digits is accepted exactly when it has the shape, a real date and a clock time; the result is the calendar's own count |
| Calendar.TimestampsNeverCollide | perplab/data/bulk_layout.py:207-253 | distinct accepted texts in ASCII digits give distinct milliseconds |
| Calendar.AcceptedExactlyWhenTheDateIsAscii | perplab/data/bulk_layout.py:229-253 | with the digits of every script: a text is accepted exactly when its date is written in ASCII and its ASCII reading is accepted, with the same result |
| Calendar.TimestampsCollideExactlyWhenReadAlike | perplab/data/bulk_layout.py:229-253 | two accepted texts give the same milliseconds exactly when they differ at most in the script of their clock digits |
| Scaled.ScalesExactlyWhenItFits | perplab/core/money.py:178-234 | a decimal literal scales exactly when 10^8 times its value is an integer in int64, and then to that integer |
| Scaled.OnlyDecimalsScale | perplab/core/money.py:183-216 | of texts whose digits are ASCII, nothing but an optionally signed decimal literal is read |
| Scaled.RoundTrip | perplab/core/money.py:270-276 | reading the fixed-point text of any int64 gives it back |
| Scaled.FixedTextIsCanonical | perplab/core/money.py:60-345 | the fixed-point text is a sign for a negative, a whole part with no zero before it, a point and eight decimals |
| CacheBudget.RecoverWriters | perplab/resources.py:347-356 | dead writers' rows go, their files are indexed, the living quotas are summed |
| CacheBudget.EvictUntilItFits | perplab/resources.py:370-384 | the eviction loop, undeletable files and undeletable sidecars included: what it leaves, and whether the request fits what is still counted |
| CacheBudget.Transact | perplab/resources.py:339-386 | the whole reservation transaction |
| CacheBudget.UsedIsOverstated | perplab/resources.py:374-382 | while the loop goes on, `used` is what is left on disk and, exactly, the files that went before their sidecar could not be deleted |
| CacheBudget.EvictedOnlyWhileNeeded | perplab/resources.py:371-382 | a file is evicted only when, with every older deletable file gone, what is left and what `used` overstates did not fit with the request; without stuck sidecars, what is left |
| CacheBudget.EvictedExactlyWhen | perplab/resources.py:370-382 | which files go, without following the loop: a file is evicted exactly when it can be deleted and the request does not fit beside it, the younger files and the undeletable ones, stuck sidecars included |
| CacheBudget.EvictedNeedlesslyExactlyWhen | perplab/resources.py:374-382 | a file is evicted although the request fits what is left exactly when it fits beside that file, the younger and the undeletable ones, but not beside those with stuck sidecars as well |
| CacheBudget.RefusedExactlyWhenHeldFilesAreInTheWay | perplab/resources.py:371-384 | a request is refused exactly when it would not fit beside the undeletable files and those whose sidecars are, gone or not |
| CacheBudget.RefusedThoughItFitsExactly | perplab/resources.py:371-384 | a refused request fits what is left exactly when it would fit beside the undeletable files alone |
| CacheBudget.StuckSidecarRefusesWhatFits | perplab/resources.py:371-384 | for every budget: one prepared file of that size with a stuck sidecar goes, and a request for any part of its place is refused |
| CacheBudget.StuckSidecarTakesTheNextFileToo | perplab/resources.py:374-382 | for every budget of at least two bytes: a stuck sidecar costs the next file, which need not have gone |
| CacheBudget.ReleaseFits | perplab/resources.py:389-395 | a release never takes more than the lease it gives up, given the file is within its quota |
| CacheBudget.QuotaIsTheLesser | perplab/resources.py:339-346 | a lease is for what was asked or for the whole budget, whichever is less |
| CacheBudget.AcquisitionTakesWhatItEvicts | perplab/resources.py:370-386 | an acquisition takes the files it evicted off the disk and no others, and leaves the registry as it was when it is refused |
| CacheBudget.BudgetIsNeverExceeded | perplab/resources.py:328-395 | over every interleaving of reservations, writes, releases, deaths and deletions, cached plus promised bytes, and the bytes on disk, stay within the budget |
| Funding.SegmentsOf | perplab/core/funding.py:125-155 | the loop cuts the record where a gap leaves the first gap's tolerance, each piece with its most common gap, the first seen among equals |
| Funding.IntervalSegments | perplab/core/funding.py:108-155 | on any times, sorted first; nothing for fewer than two |
| Funding.SegmentsTileTheRecord | perplab/core/funding.py:125-155 | neighbours share an endpoint, first and last times are covered, settlements less one sum to n - 1 |
| Funding.SegmentsAreSteady | perplab/core/funding.py:125-155 | in the times' own terms: within a segment no gap strays from its first by more than the tolerance, its interval is the first of its most common gaps, and the next segment starts at a gap that strays |
| Funding.WindowsConcatenate | perplab/core/funding.py:177-188 | consecutive half-open windows concatenate |
| Funding.EachSettlementOnce | perplab/core/funding.py:177-188 | stepping through any ascending bounds settles each settlement exactly once |

## Left out

- The command line, HTTP interface, workers, ingestion, catalogue and user interface.
- Error message text, JSON rendering, event detail strings and the `symbol`/`position_side` fields a position repeats from its key.
- Overflow of the 50-digit decimal context, and rounding inside a division before it is quantised.
- LiquidationSweep.VisitingOrderDoesNotMatter: the event log is not part of the comparison, since it lists the liquidations in the order they were made; the source fixes that order by sorting the keys, here it is a parameter.
- Scaled.ToScaled: takes a stripped text without an exponent, because scientific notation goes through the `Decimal` parser, which is not part of this model.
- Scaled.OnlyDecimalsScale: like the whole of `Scaled`, of texts in ASCII digits; `isdigit` and `int` read the decimal digits of every script, and so does the source.
- Calendar.ReadMs: takes a stripped text; which characters are decimal digits, and their values, are a parameter.
- Calendar.TimestampsNeverCollide: of texts in ASCII digits; for the digits of every script `Calendar.TimestampsCollideExactlyWhenReadAlike` says which texts collide.
- Exposure.ProjectedExposureIsTheLeastUpperBound: of the orders it counts; reduce-only fills are the subject of `ReduceOnly`.
- ReduceOnly.TheBoundIsExceededExactlyWhenOutreached: fills may be of any size, where the engine floors each to the lot step, and orders neither join nor leave while they fill.
- RiskDesk.NoReachedPositionExceedsTheCeiling: holds at one fixed price; with a moving price the source checks each order at its own, and an earlier position may be worth more later.
- RiskRuns.HaltsAtTheFirstLimitMet: the other triggers (losing streak, liquidation, rejections, disconnect, reconciliation, outage, invariant failure) enter only as calls of `_halt`; what decides each of them is a comparison of its own inputs.
- Un-arming the kill switch, normalised rejection tallies, and the rows of `usage` other than the submission rate.
- RateLimit.NoMinuteExceedsTheRate: assumes order checks arrive in time order, as the limiter itself does.
- CacheBudget.BudgetIsNeverExceeded: all processes share one budget, a writer's file is within its quota when it is released, and process liveness, undeletable files and sidecars, and newly found files are inputs of the steps; SQLite and the file system are not modelled, and the size of the `.json` beside a prepared file is not counted, as in the source.
- TradeLegs.EveryTradeIsItsLegs: the outermost prices are stated where every sampled price is positive; the source takes a zero for none recorded.
- RoundTrips.FlatToFlatRealisesTheNotionals: of trades closed by fills; a liquidation realises its allocation, not its notionals.
- The spill allowance, memory admission, Windows job objects and the monitor thread of `resources.py`.
- Reading a log's JSON, and the verdict thresholds of the parity report.
- The analytics ratios computed in floating point.
- Identity of objects beyond what the classes here hold: the source's positions are immutable values and are values here.
