# Portfolio rebalancer, modelled in Dafny

The system is a small TypeScript portfolio rebalancer with three entity classes.

- A `Stock` has a symbol fixed at construction and a current price that a setter overwrites.
- A `Position` refers to one stock and holds a quantity that `buy` and `sell` adjust.
- A `Portfolio` holds:
  - a list of positions,
  - a target-allocation map from symbol to fraction,
  - a fixed threshold of 0.03,
  - a cash balance (`_cashDrag`).

`rebalance()` works in two steps.

1. It computes each held symbol's share of the stocks-only value and compares it with the target. Where the drift lies beyond ±0.03 it sizes a pending SELL or BUY of `floor(|drift · value| / price)` shares. A missing target, or a target of zero, throws before anything changes.
2. `executeOrders` then runs:
   - every SELL in discovery order, each crediting cash;
   - then the BUYs sorted by descending drift. Each BUY is capped at `floor(cash / price)` for the cash at that moment, and a BUY whose cap is zero is dropped.

The model has two layers.

- **Value level.** A snapshot of the positions (`Holding`, `Book`) and functions over it:
  - `Valuation`: stocks value, maps, current allocations;
  - `Drift`: order sizing;
  - `Sorting`: the stable descending sort;
  - `Execution`: the SELL and BUY phases;
  - `Rebalancing`: the whole `rebalance()` and the properties it promises.
- **Object level.** The classes `StockEntity.Stock`, `PositionEntity.Position` and `PortfolioEntity.Portfolio`. They have the source's fields and methods, and `modifies`/`reads` frames.
  - Each state-changing method is proved to leave the objects in exactly the state the value-level function describes. For example, `Portfolio.Rebalance` ends with `Book() == Rebalance(old(Book()), targets).book` and returns the orders of its fills.
  - The loops of `rebalance` and `executeOrders` are `while` loops with invariants.
  - The sort of the pending BUYs is an in-place insertion sort on an array.

Further details of the model:

- Money and fractions are `real` (exact rationals), and `Math.floor` is `.Floor`.
- A JavaScript `Map<string, number>` is its list of entries in insertion order (`Entries`). `Get` returns the first match. `Set` overwrites in place, or appends a new key.
- A pending order names its position by its index in the position list.
- `Scenario` and `Walkthrough` replay the repository's `main.ts` example:
  - `Scenario` on values;
  - `Walkthrough` on the objects, from `new Stock(...)` to `rebalance()`. The example first buys `floor(5000 / 150) = 33` AAPL shares, and `rebalance()` then returns SELL 2 AAPL, then BUY 2 META, with 70 of cash left.
- Orders are sized against the stocks-only value that `calculatePortfolioValue` returns (`portfolio.entity.ts:51`, `137-139`); the cash balance does not enter the sizing. `Rebalancing.PendingOfSized` states this, and `Scenario.CashRichRebalance` shows the orders unchanged when the cash grows.

## Model

| member | source | states |
|---|---|---|
| Valuation.StocksValue | src/entities/portfolio.entity.ts:137-139 | the reduce summing price × quantity over the positions; reference definition; its properties are in the lemma rows below |
| Valuation.SumValues | src/entities/portfolio.entity.ts:41 | the reduce summing a map's values; reference definition; its properties are in the lemma rows below |
| Valuation.CurrentAllocations | src/entities/portfolio.entity.ts:141-152 | the allocation map over the stocks value; reference definition; its properties are in the lemma rows below |
| Valuation.AllocationsOver | src/entities/portfolio.entity.ts:143-151 | the reduce that calls `Map.set(symbol, value / total)` for each position in order; reference definition; its properties are in the lemma rows below |
| Valuation.StocksValueAppend | src/entities/portfolio.entity.ts:137-139 | one more position adds exactly its price × quantity to the stocks value |
| Valuation.AddedPositionKeepsTotal | src/entities/portfolio.entity.ts:35-38 | appending a holding and paying price × quantity out of cash leaves stocks value plus cash unchanged |
| Valuation.FindBySymbol | src/entities/portfolio.entity.ts:61 | `find` returns the first position with the symbol; it finds none exactly when no position has it |
| Valuation.FindOwnSymbol | src/entities/portfolio.entity.ts:61-64 | with unique symbols, looking up a position's own symbol finds that position, so the lookup cannot fail |
| Valuation.Get | src/entities/portfolio.entity.ts:57 | `Map.get` finds a value exactly when the key is present, and that value is stored under the key |
| Valuation.Set | src/entities/portfolio.entity.ts:148 | `Map.set` adds the key, stores the value under it, leaves every other key's value alone, and appends a new key at the end |
| Valuation.AllocationKeys | src/entities/portfolio.entity.ts:141-152 | the allocation map holds no key twice, and its keys are exactly the held symbols |
| Valuation.AllocationsUnique | src/entities/portfolio.entity.ts:141-152 | with unique symbols, entry k of the allocation map is position k's symbol with value / stocks value, in position order |
| Valuation.AllocationsSumToOne | src/entities/portfolio.entity.ts:141-152 | with unique symbols and a non-zero stocks value, the current allocations sum to 1: they are shares of the stocks-only value, whatever the cash |
| Drift.HasTarget | src/entities/portfolio.entity.ts:57-58 | the truthiness test on the looked-up target: present and non-zero; reference definition; its properties are in the lemma rows below |
| Drift.PendingFor | src/entities/portfolio.entity.ts:57-86 | one loop pass: the missing-target error, then the position-not-found error, then OrderFor; reference definition; its properties are in the lemma rows below |
| Drift.OrderFor | src/entities/portfolio.entity.ts:66-86 | at most one order, and none exactly when the drift lies in the closed band ±0.03; a SELL exactly when allocation > target; the weight is the drift's magnitude, above 0.03 |
| Drift.OrderSize | src/entities/portfolio.entity.ts:67-79 | the order's quantity n is the floor of moneyDifference / price for a SELL and of abs(moneyDifference) / price for a BUY, with moneyDifference = (allocation − target) × base: n ≤ money / price < n + 1; with a non-negative base, n ≥ 0 |
| Drift.PendingOrdersSized | src/entities/portfolio.entity.ts:56-87 | when each entry's allocation is its position's value over the base, every pending order is exactly the order OrderFor gives that position at its allocation and target |
| Drift.PendingOrders | src/entities/portfolio.entity.ts:56-87 | every pending order refers to an existing position |
| Drift.PendingOrdersFailIff | src/entities/portfolio.entity.ts:56-64 | with every entry held, the loop fails exactly when some entry has no target or a zero target; it fails with TargetNotFound for such a symbol and never with PositionNotFound |
| Drift.PendingOrdersWithinBand | src/entities/portfolio.entity.ts:70-86 | when every entry is within its band, the loop produces no pending order |
| Drift.SellWithinHolding | src/entities/portfolio.entity.ts:67-71 | with positive price, base and target, a sized SELL lies between 0 and the quantity held |
| Drift.PendingSellsWithinHolding | src/entities/portfolio.entity.ts:56-87 | with positive prices, a positive base, allocations that match the positions' value over the base, and non-negative targets, every pending SELL of the loop lies between 0 and its position's quantity |
| Drift.PendingInPositionOrder | src/entities/portfolio.entity.ts:56-87 | with positive prices and unique symbols, and with the entries listing the positions in order (entry k is position k's symbol, as many entries as positions), pending orders come in strictly increasing position order, at most one per position |
| Rebalancing.AllocationsHeld | src/entities/portfolio.entity.ts:141-152 | every allocation entry names a held symbol, and every held symbol has an entry |
| Rebalancing.Rebalance | src/entities/portfolio.entity.ts:50-92 | the first sizing error, or the execution of all pending orders; reference definition; its properties are in the lemma rows below |
| Rebalancing.PendingOf | src/entities/portfolio.entity.ts:50-87 | the pending orders sized against the stocks-only value all refer to existing positions |
| Rebalancing.PendingOfSized | src/entities/portfolio.entity.ts:50-87 | with unique symbols, every pending order is OrderFor's order for its position with base = the stocks-only value and allocation = value / base; its quantity is the whole number of shares that (allocation − target) × base, or its magnitude for a BUY, pays for at the price |
| Rebalancing.RebalanceFailsIff | src/entities/portfolio.entity.ts:56-60 | rebalance fails exactly when some held symbol has no target or a zero target, and the error names such a held symbol |
| Rebalancing.RebalanceWithinBand | src/entities/portfolio.entity.ts:70-86 | with positive prices, a non-zero stocks value and unique symbols, when every position is within its band, rebalance returns no orders and the book unchanged |
| Rebalancing.PendingIncrease | src/entities/portfolio.entity.ts:56-87 | with unique symbols, the pending orders of a successful sizing are in strictly increasing position order |
| Rebalancing.RebalanceOrdering | src/entities/portfolio.entity.ts:97-113 | with positive prices, a non-zero stocks value and unique symbols, after a successful rebalance every SELL precedes every BUY; SELLs keep position order; BUYs come by non-increasing weight, and ties keep position order |
| Rebalancing.ExecuteOrdering | src/entities/portfolio.entity.ts:94-135 | the same three ordering facts for executing any pending list in position order |
| Rebalancing.ExecuteActions | src/entities/portfolio.entity.ts:97-132 | the first fills are exactly the pending SELLs in order, and every later fill is a BUY |
| Rebalancing.ExecuteBuysByWeight | src/entities/portfolio.entity.ts:112-132 | the BUY fills come by non-increasing weight, with equal weights in increasing position order |
| Rebalancing.RebalanceOrdersFromPending | src/entities/portfolio.entity.ts:97-132 | every pending SELL is emitted in full; every emitted SELL has its pending quantity; every emitted order comes from a pending order |
| Rebalancing.ExecuteFromPending | src/entities/portfolio.entity.ts:94-135 | the same three facts for executing any pending list |
| Rebalancing.ExecuteBuyIsPending | src/entities/portfolio.entity.ts:115-132 | each BUY fill comes from one of the pending orders |
| Rebalancing.RebalanceConservation | src/entities/portfolio.entity.ts:108-130 | new cash is old cash plus Σ SELL price·qty minus Σ BUY price·qty; each quantity moves by its orders' net quantity; positions with no order are untouched; symbols and prices do not change |
| Rebalancing.RebalanceKeepsTotal | src/entities/portfolio.entity.ts:108-130 | stocks value plus cash is the same after rebalancing as before |
| Rebalancing.RebalanceBuyCap | src/entities/portfolio.entity.ts:119-131 | every emitted BUY has 0 < qty ≤ its pending quantity and leaves cash ≥ 0 at the moment it runs |
| Rebalancing.RebalanceBuyCapAt | src/entities/portfolio.entity.ts:119-131 | the BUY at index i, applied to the book after the first i fills, meets the cap, and its quantity is at most floor(cash / price) for the cash of that book |
| Rebalancing.RebalanceSellsWithinHolding | src/entities/portfolio.entity.ts:67-71 | with positive prices and stocks value, unique symbols and non-negative targets, each emitted SELL lies between 0 and the quantity held |
| Rebalancing.RebalanceQuantitiesNonNegative | src/entities/portfolio.entity.ts:94-135 | under the same conditions, if no quantity starts negative then none ends negative |
| Sorting.Insert | src/entities/portfolio.entity.ts:113 | one step of the stable descending sort, placing an order after every order of at least its weight; reference definition; its properties are in the lemma rows below |
| Sorting.SortByWeight | src/entities/portfolio.entity.ts:113 | the stable sort by descending weight; reference definition; its properties are in the lemma rows below |
| Sorting.SortIsOrdered | src/entities/portfolio.entity.ts:113 | the sorted BUYs are in non-increasing weight order |
| Sorting.SortPermutes | src/entities/portfolio.entity.ts:113 | the sort is a permutation of its input |
| Sorting.SortIsStable | src/entities/portfolio.entity.ts:113 | for every weight, the elements of that weight keep their input order |
| Sorting.SortTies | src/entities/portfolio.entity.ts:113 | with input in position order, equal weights come out in increasing position order |
| Sorting.SortInPlace | src/entities/portfolio.entity.ts:113 | the array ends holding the stable descending sort of its old contents |
| Sorting.InsertAt | src/entities/portfolio.entity.ts:113 | one insertion step moves `a[i]` into the sorted prefix and leaves the rest of the array alone |
| Sorting.SortedCopy | src/entities/portfolio.entity.ts:112-113 | a fresh array holding the filtered BUYs, sorted |
| Execution.Execute | src/entities/portfolio.entity.ts:94-135 | executeOrders: the SELL fills, then the BUY fills of the sorted BUYs from the book the SELLs leave; reference definition; its properties are in the lemma rows below |
| Execution.SellFills | src/entities/portfolio.entity.ts:97-110 | each pending SELL filled at its full quantity, in order; reference definition; its properties are in the lemma rows below |
| Execution.Affordable | src/entities/portfolio.entity.ts:119 | floor(cash / price); reference definition; its properties are in the lemma rows below |
| Execution.CappedQuantity | src/entities/portfolio.entity.ts:119-121 | min(pending quantity, floor(cash / price)); reference definition; its properties are in the lemma rows below |
| Execution.BuyFills | src/entities/portfolio.entity.ts:115-132 | the BUY loop, each BUY capped for the cash at its turn and executed only when positive; every fill refers to an existing position; reference definition; its properties are in the lemma rows below |
| Execution.Step | src/entities/portfolio.entity.ts:108-109 | one order keeps every position's symbol and price |
| Execution.ApplyFills | src/entities/portfolio.entity.ts:94-135 | any run of orders keeps every position's symbol and price |
| Execution.OfAction | src/entities/portfolio.entity.ts:97 | the filter keeps exactly the pending orders with the given action |
| Execution.OfActionKeepsOrder | src/entities/portfolio.entity.ts:112 | the filter keeps position order |
| Execution.ExecuteSplit | src/entities/portfolio.entity.ts:94-135 | the fills are the SELL fills followed by the capped BUY fills of the sorted BUYs, and the book is all of them applied in order |
| Execution.ExecuteSells | src/entities/portfolio.entity.ts:97-110 | the first fills are the pending SELLs, each for its full quantity (zero included), and the new book is the fills applied in order |
| Execution.ExecuteBuys | src/entities/portfolio.entity.ts:113-132 | the BUY fills' pending orders are a subsequence of the sorted BUYs |
| Execution.ExecuteBuysPositive | src/entities/portfolio.entity.ts:121-123 | every fill after the SELLs is a BUY with quantity > 0 |
| Execution.ExecuteBuyCap | src/entities/portfolio.entity.ts:119-131 | every BUY fill meets its cap at the moment it runs |
| Execution.ExecuteNothing | src/entities/portfolio.entity.ts:94-135 | no pending orders: no fills and nothing changes |
| Execution.ApplyFillsEffect | src/entities/portfolio.entity.ts:108-130 | cash moves by the fills' cash flow, and each position's quantity by its net quantity |
| Execution.ApplyFillsKeepsTotal | src/entities/portfolio.entity.ts:108-130 | stocks value plus cash is unchanged by any run of orders |
| Execution.StepKeepsTotal | src/entities/portfolio.entity.ts:108-109 | stocks value plus cash is unchanged by one order |
| Execution.NoOrderNoChange | src/entities/portfolio.entity.ts:94-135 | a position that no fill names has net quantity 0 |
| Execution.CapAffordable | src/entities/portfolio.entity.ts:119-121 | buying at most floor(cash / price) shares at a positive price leaves cash ≥ 0 |
| Execution.CapHoldsGivesFloor | src/entities/portfolio.entity.ts:119-121 | conversely, a BUY that meets the cap buys at most floor(cash / price) shares |
| Execution.BuysCappedAt | src/entities/portfolio.entity.ts:119-131 | in a capped run, the BUY at index k meets its cap against the book after the first k fills |
| Execution.BuyFillsAreBuys | src/entities/portfolio.entity.ts:121-131 | every BUY loop fill is a BUY with quantity > 0 |
| Execution.BuyFillsCapped | src/entities/portfolio.entity.ts:115-132 | every BUY loop fill is at most its pending quantity and leaves cash ≥ 0 |
| Execution.BuyFillsUnroll | src/entities/portfolio.entity.ts:115-132 | one turn of the BUY loop: the j-th BUY is emitted with quantity min(pending, floor(cash / price)) when that is positive and skipped otherwise, and the loop carries on from the book it leaves |
| Execution.BuyTurn | src/entities/portfolio.entity.ts:115-132 | the same turn read from the start book and the fills so far: the fills and the book grow by that BUY exactly when its cap is positive |
| Execution.BuyFillsSubseq | src/entities/portfolio.entity.ts:115-132 | the orders the BUY loop emits are a subsequence of its input, in input order |
| StockEntity.Stock.constructor | src/entities/stock.entity.ts:5-10 | the symbol is the argument; the price is the argument when it is given and non-zero, and 0 otherwise |
| StockEntity.Stock.GetSymbol | src/entities/stock.entity.ts:12-14 | returns the symbol |
| StockEntity.Stock.CurrentPrice | src/entities/stock.entity.ts:16-18 | overwrites the price and changes no other field |
| StockEntity.Stock.GetCurrentPrice | src/entities/stock.entity.ts:20-22 | returns the current price |
| StockEntity.RepriceThenRead | src/entities/stock.entity.ts:12-22 | after the setter, the getter returns the price set and the symbol is unchanged |
| PositionEntity.Position.constructor | src/entities/position.entity.ts:4 | stores the stock and the quantity |
| PositionEntity.Position.GetPositionValue | src/entities/position.entity.ts:6-8 | the stock's current price × quantity, read at call time |
| PositionEntity.Position.GetStock | src/entities/position.entity.ts:10-12 | returns the stock reference |
| PositionEntity.Position.GetQuantity | src/entities/position.entity.ts:14-16 | returns the quantity |
| PositionEntity.Position.Buy | src/entities/position.entity.ts:18-20 | the quantity grows by exactly n |
| PositionEntity.Position.Sell | src/entities/position.entity.ts:22-24 | the quantity shrinks by exactly n, with no check against going negative |
| PositionEntity.BuyThenSell | src/entities/position.entity.ts:18-24 | buy(n) then sell(n) restores the quantity, and with it the position's whole snapshot |
| PositionEntity.ValueAfterRepricing | src/entities/position.entity.ts:6-8 | after the stock is repriced, the position's value is the new price × the unchanged quantity |
| PortfolioEntity.ToOrders | src/entities/portfolio.entity.ts:103-107 | each returned order names the stock, quantity and action of its fill's position |
| PortfolioEntity.PositionsValue | src/entities/portfolio.entity.ts:137-139 | the reduce over the positions' values equals the stocks value of their snapshot |
| PortfolioEntity.PositionAllocations | src/entities/portfolio.entity.ts:141-152 | the reduce with `Map.set` over the positions equals the allocation map of their snapshot |
| PortfolioEntity.CollectPendingOrders | src/entities/portfolio.entity.ts:54-87 | the loop over the current allocations returns exactly the value-level pending orders, or the value-level first error |
| PortfolioEntity.Portfolio.constructor | src/entities/portfolio.entity.ts:18-25 | no positions, an empty target map, and cash as given |
| PortfolioEntity.Portfolio.GetPositions | src/entities/portfolio.entity.ts:27-29 | returns the position list |
| PortfolioEntity.Portfolio.GetCashDrag | src/entities/portfolio.entity.ts:31-33 | returns the cash balance |
| PortfolioEntity.Portfolio.AddPosition | src/entities/portfolio.entity.ts:35-38 | cash drops by exactly price × quantity with no guard; exactly one new position for that stock is appended; the earlier positions are kept |
| PortfolioEntity.Portfolio.SetTargetAllocations | src/entities/portfolio.entity.ts:40-48 | succeeds exactly when the values sum to 1 within 0.001 and then replaces the map; otherwise it fails with the sum and leaves the old map |
| PortfolioEntity.Portfolio.CalculatePortfolioValue | src/entities/portfolio.entity.ts:137-139 | the stocks-only value of the current positions |
| PortfolioEntity.Portfolio.CalculateCurrentAllocations | src/entities/portfolio.entity.ts:141-152 | the allocation map of the current positions |
| PortfolioEntity.Portfolio.Rebalance | src/entities/portfolio.entity.ts:50-92 | on error, the value-level error and nothing changed; otherwise the orders and the new positions and cash of the value-level rebalance |
| PortfolioEntity.Portfolio.SizeOrders | src/entities/portfolio.entity.ts:51-87 | the value-level pending orders, with nothing changed |
| PortfolioEntity.Portfolio.ExecuteOrders | src/entities/portfolio.entity.ts:94-135 | the orders and new state of the value-level Execute |
| PortfolioEntity.Portfolio.ExecuteSellOrders | src/entities/portfolio.entity.ts:97-110 | each SELL in order, in full, through the positions |
| PortfolioEntity.Portfolio.ExecuteBuyOrders | src/entities/portfolio.entity.ts:115-132 | the capped BUY fills of the sorted list, applied through the positions |
| PortfolioEntity.Portfolio.QuantityToBuy | src/entities/portfolio.entity.ts:116-121 | the BUY cap computed from the objects equals the value-level cap |
| PortfolioEntity.Portfolio.SellShares | src/entities/portfolio.entity.ts:99-109 | one SELL: the order returned, and the book moved by one step |
| PortfolioEntity.Portfolio.BuyShares | src/entities/portfolio.entity.ts:116-130 | one BUY: the order returned, and the book moved by one step |
| Scenario.RepricedValue | main.ts:55-65 | after the price move the stocks value is 10860 |
| Scenario.RepricedAllocations | main.ts:55-65 | the repriced allocations are 5940, 1620 and 3300 over 10860 |
| Scenario.RepricedPending | main.ts:71-76 | sizing gives SELL 2 AAPL (weight 510/10860) and BUY 2 META (weight 552/10860); FNTL is in band |
| Scenario.RepricedExecute | main.ts:71-76 | the SELL alone leaves 31 AAPL and 610 of cash; executing both leaves 31 / 8 / 30 shares and 70 of cash |
| Scenario.RepricedRebalance | main.ts:71-76 | rebalance of the repriced example returns SELL 2 AAPL, then BUY 2 META, and ends with cash 70 |
| Scenario.ExecuteWithCash | main.ts:71-76 | from the repriced holdings with any cash ≥ 180, the two orders execute in full and leave cash − 180 |
| Scenario.CashRichRebalance | src/entities/portfolio.entity.ts:51-79 | with 5250 of cash instead of 250 the same two orders come out, since moneyDifference is scaled by the stocks value 10860, and cash ends at 5070 |
| Scenario.StocksAndCashBase | src/entities/portfolio.entity.ts:66-79 | a base of stocks plus cash (16110) would size SELL 4 AAPL and BUY 3 META from the same allocations, not SELL 2 / BUY 2 |
| Walkthrough.InitialShares | main.ts:35-38 | the initial share count is floor(10000 × target / price) |
| Walkthrough.Purchase | main.ts:33-46 | the three addPosition calls give 33 / 6 / 30 shares and leave 250 of cash |
| Walkthrough.Reprice | main.ts:55-65 | the three price setter calls reach the positions through their stocks |
| Walkthrough.Example | main.ts:10-76 | the object-level program holds three positions, the first on the stock with symbol AAPL and the second on the one with symbol META; rebalance returns exactly [SELL 2 of that AAPL stock, BUY 2 of that META stock] and leaves 31 / 8 / 30 shares and 70 of cash |

## Left out

- IEEE-754 arithmetic: amounts are exact reals, so rounding differences between doubles and the model are not captured.
- Error message texts, including the `toFixed(2)` rendering of the sum; errors are datatypes carrying the sum or the symbol.
- Throws are modelled as `Result` values; a JavaScript exception unwinding through callers is not.
- Division by zero: `rebalance` and the allocation functions require positive prices and a non-zero stocks value (`Priced`), so the model leaves out the portfolios where the source divides by zero. In the source, a portfolio with no positions has an empty allocation map, so `rebalance` returns `[]`. When every quantity is 0, the stocks value is 0, every allocation is `0 / 0 = NaN`, and both band comparisons are false. The result is then the missing-target throw, or `[]` with nothing changed. The stocks value is also 0 when every price is 0, with the same outcome. Under a non-zero stocks value, a zero-price position has value 0, allocation 0 and drift −target. When that drift lies within the band (a target between −0.03 and 0.03), neither branch of lines 70 and 78 runs and nothing is divided by its price. The source then handles the portfolio normally, but `Priced` leaves that case out of the model. Only a zero-price position outside its band divides by its price. A target above 0.03 gives a BUY of `floor(+Infinity)` shares at line 79, and line 119 then divides the cash by 0 as well. A target below −0.03 gives a SELL of `floor(+Infinity)` shares at line 71.
- SetTargetAllocations: the source stores the caller's `Map` by reference (`portfolio.entity.ts:47`), so a caller that mutates it afterwards bypasses the sum check. The model stores the entries as a value, so that aliasing is not modelled.
- Quantities are `number` in the source (`position.entity.ts:4`, `18-24`), so a fractional quantity can be passed to the constructor, `buy` or `sell`. The model's quantities are `int`; the source's own sizing only produces whole numbers, through `Math.floor`.
- Duplicate symbols: the lemmas that need position-by-position allocations require unique symbols. The functions themselves follow `Map.set` and `find`, so duplicates collapse as in the source.
- `Array.prototype.sort` is a library call. It is modelled by its specification, a stable sort by descending weight, carried out as an in-place insertion sort. The library's own algorithm is not modelled.
- `getPositions` returns the live array, so a caller could mutate the portfolio's list through it. The model returns the sequence value, so that aliasing is not modelled.
- The pending and order arrays are sequences that the loops extend. `filter` and `find` are pure functions rather than loops.
- The loops of `executeOrders` are split into helper methods (`ExecuteSellOrders`, `ExecuteBuyOrders`, `SellShares`, `BuyShares`). The source has them inline.
- Execution.CapHolds: the BUY cap is stated as "cash stays non-negative after the BUY" together with `0 < qty ≤ pending`; the floor is not restated inside the recursive predicate. At a positive price the two are equivalent: `Execution.CapAffordable` proves that `qty ≤ floor(cash / price)` gives cash ≥ 0, and `Execution.CapHoldsGivesFloor` proves the converse. `Rebalancing.RebalanceBuyCapAt` states the floor bound for each emitted BUY.
- Console output in `main.ts` and the display utilities (`src/utils/display-allocations.utils.ts`, `src/utils/display-orders.utils.ts`) are pure formatting; they are not part of this model.
