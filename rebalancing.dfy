/**
 * rebalance() on a snapshot of the portfolio: the pending orders for the current allocations against
 * the targets, then their execution. Everything it promises is stated here about this function; the
 * Portfolio class is proved to do exactly this to its own fields.
 */
module Rebalancing {
  import opened Wrappers
  import opened Valuation
  import opened Drift
  import opened Sorting
  import opened Execution

  /** rebalance() divides by each price (lines 71, 79, 119) and by the stocks value (line 148). */
  predicate Priced(b: Book) {
    PricesPositive(b.holdings) && StocksValue(b.holdings) != 0.0
  }

  /** The loop at lines 56-87: sizing against the stocks-only value, over the allocation map in its order. */
  function PendingOf(b: Book, targets: Entries): (r: Result<seq<Pending>, RebalanceError>)
    requires Priced(b)
    ensures r.Ok? ==> PendingFits(r.value, |b.holdings|)
  {
    PendingOrders(b.holdings, targets, StocksValue(b.holdings), CurrentAllocations(b.holdings))
  }

  /** rebalance(): the first error the loop meets, or the execution of every pending order. */
  function Rebalance(b: Book, targets: Entries): Result<Outcome, RebalanceError>
    requires Priced(b)
  {
    match PendingOf(b, targets)
    case Err(e) => Err(e)
    case Ok(pending) => Ok(Execute(b, pending))
  }

  /** Every SELL precedes every BUY. */
  predicate SellsBeforeBuys(fs: seq<Fill>) {
    forall i, j :: 0 <= i < j < |fs| && fs[j].order.action == Sell ==> fs[i].order.action == Sell
  }

  /** The SELLs come in position order, at most one per position. */
  predicate SellsInPositionOrder(fs: seq<Fill>) {
    forall i, j :: 0 <= i < j < |fs| && fs[i].order.action == Sell && fs[j].order.action == Sell ==>
      fs[i].order.index < fs[j].order.index
  }

  /** The BUYs come by non-increasing weight, equal weights in position (discovery) order. */
  predicate BuysByWeight(fs: seq<Fill>) {
    forall i, j :: 0 <= i < j < |fs| && fs[i].order.action == Buy && fs[j].order.action == Buy ==>
      && fs[i].order.weight >= fs[j].order.weight
      && (fs[i].order.weight == fs[j].order.weight ==> fs[i].order.index < fs[j].order.index)
  }

  /** The allocation map's keys are exactly the held symbols. */
  lemma AllocationsHeld(hs: seq<Holding>)
    requires StocksValue(hs) != 0.0
    ensures SymbolsHeld(hs, CurrentAllocations(hs))
    ensures forall k :: 0 <= k < |hs| ==> exists i :: 0 <= i < |CurrentAllocations(hs)| && CurrentAllocations(hs)[i].0 == hs[k].symbol
  {
    var m := CurrentAllocations(hs);
    AllocationKeys(hs, StocksValue(hs));
    KeysIndex(m);
    forall k | 0 <= k < |hs|
      ensures exists i :: 0 <= i < |m| && m[i].0 == hs[k].symbol
    {
      assert FindBySymbol(hs, hs[k].symbol).Some?;
      assert hs[k].symbol in Keys(m);
    }
  }

  /**
   * rebalance() throws exactly when some held symbol has no target or a zero one, and then with
   * TargetNotFound for such a symbol: the "not found in portfolio" error can never be raised.
   */
  lemma RebalanceFailsIff(b: Book, targets: Entries)
    requires Priced(b)
    ensures Rebalance(b, targets).Err? <==>
      exists k :: 0 <= k < |b.holdings| && !HasTarget(targets, b.holdings[k].symbol)
    ensures Rebalance(b, targets).Err? ==>
      var e := Rebalance(b, targets).error;
      && e.TargetNotFound?
      && !HasTarget(targets, e.symbol)
      && exists k :: 0 <= k < |b.holdings| && b.holdings[k].symbol == e.symbol
  {
    var hs := b.holdings;
    var m := CurrentAllocations(hs);
    AllocationsHeld(hs);
    PendingOrdersFailIff(hs, targets, StocksValue(hs), m);
    if exists k :: 0 <= k < |hs| && !HasTarget(targets, hs[k].symbol) {
      var k :| 0 <= k < |hs| && !HasTarget(targets, hs[k].symbol);
      var i :| 0 <= i < |m| && m[i].0 == hs[k].symbol;
      assert !HasTarget(targets, m[i].0);
    }
    if exists i :: 0 <= i < |m| && !HasTarget(targets, m[i].0) {
      var i :| 0 <= i < |m| && !HasTarget(targets, m[i].0);
      var k := FindBySymbol(hs, m[i].0).value;
      assert !HasTarget(targets, hs[k].symbol);
    }
    if Rebalance(b, targets).Err? {
      var e := Rebalance(b, targets).error;
      var i :| 0 <= i < |m| && m[i].0 == e.symbol;
      var k := FindBySymbol(hs, m[i].0).value;
      assert hs[k].symbol == e.symbol;
    }
  }

  /** Position k's allocation lies within the band around its (present, non-zero) target. */
  predicate PositionInBand(b: Book, targets: Entries, k: nat)
    requires k < |b.holdings| && StocksValue(b.holdings) != 0.0
  {
    InBand(targets, (b.holdings[k].symbol, b.holdings[k].Value() / StocksValue(b.holdings)))
  }

  /** Within the band everywhere, rebalance() returns no orders and changes neither quantities nor cash. */
  lemma RebalanceWithinBand(b: Book, targets: Entries)
    requires Priced(b) && UniqueSymbols(b.holdings)
    requires forall k :: 0 <= k < |b.holdings| ==> PositionInBand(b, targets, k)
    ensures Rebalance(b, targets) == Ok(Outcome([], b))
  {
    var hs := b.holdings;
    var base := StocksValue(hs);
    var m := CurrentAllocations(hs);
    AllocationsHeld(hs);
    AllocationsUnique(hs, base);
    assert forall i :: 0 <= i < |m| ==> InBand(targets, m[i]) by {
      forall i | 0 <= i < |m| ensures InBand(targets, m[i]) {
        assert PositionInBand(b, targets, i);
      }
    }
    PendingOrdersWithinBand(hs, targets, base, m);
    ExecuteNothing(b);
  }

  /** With unique symbols, the pending orders come in position order. */
  lemma PendingIncrease(b: Book, targets: Entries)
    requires Priced(b) && UniqueSymbols(b.holdings) && PendingOf(b, targets).Ok?
    ensures IndicesIncrease(PendingOf(b, targets).value)
  {
    var hs := b.holdings;
    var m := CurrentAllocations(hs);
    AllocationsUnique(hs, StocksValue(hs));
    assert m[0..] == m;
    PendingInPositionOrder(hs, targets, StocksValue(hs), m, 0);
  }

  /**
   * The order of the returned orders: all SELLs first, in position order; then the BUYs by
   * descending allocation difference, ties in position order.
   */
  lemma RebalanceOrdering(b: Book, targets: Entries)
    requires Priced(b) && UniqueSymbols(b.holdings) && Rebalance(b, targets).Ok?
    ensures var fs := Rebalance(b, targets).value.fills;
      SellsBeforeBuys(fs) && SellsInPositionOrder(fs) && BuysByWeight(fs)
  {
    PendingIncrease(b, targets);
    ExecuteOrdering(b, PendingOf(b, targets).value);
  }

  lemma ExecuteOrdering(b: Book, pending: seq<Pending>)
    requires PendingFits(pending, |b.holdings|) && PricesPositive(b.holdings) && IndicesIncrease(pending)
    ensures var fs := Execute(b, pending).fills;
      SellsBeforeBuys(fs) && SellsInPositionOrder(fs) && BuysByWeight(fs)
  {
    var fs := Execute(b, pending).fills;
    var sells := OfAction(pending, Sell);
    var n := |sells|;
    ExecuteActions(b, pending);
    OfActionKeepsOrder(pending, Sell);
    assert forall i :: 0 <= i < n ==> fs[i].order == sells[i];
    ExecuteBuysByWeight(b, pending);
  }

  /** The first |sells| orders are the pending SELLs in order, and all after them are BUYs. */
  lemma ExecuteActions(b: Book, pending: seq<Pending>)
    requires PendingFits(pending, |b.holdings|) && PricesPositive(b.holdings)
    ensures var fs := Execute(b, pending).fills;
      var sells := OfAction(pending, Sell);
      && |sells| <= |fs|
      && (forall i :: 0 <= i < |sells| ==> fs[i].order == sells[i] && fs[i].order.action == Sell)
      && (forall i :: |sells| <= i < |fs| ==> fs[i].order.action == Buy)
  {
    var fs := Execute(b, pending).fills;
    ExecuteSells(b, pending);
    ExecuteBuysPositive(b, pending);
  }

  /** The orders after the SELLs are the sorted pending BUYs with some left out. */
  lemma ExecuteBuysByWeight(b: Book, pending: seq<Pending>)
    requires PendingFits(pending, |b.holdings|) && PricesPositive(b.holdings) && IndicesIncrease(pending)
    ensures var fs := Execute(b, pending).fills;
      var n := |OfAction(pending, Sell)|;
      && n <= |fs|
      && forall i, j :: n <= i < j < |fs| ==>
        && fs[i].order.weight >= fs[j].order.weight
        && (fs[i].order.weight == fs[j].order.weight ==> fs[i].order.index < fs[j].order.index)
  {
    var fs := Execute(b, pending).fills;
    var n := |OfAction(pending, Sell)|;
    var buys := OfAction(pending, Buy);
    ExecuteBuys(b, pending);
    OfActionKeepsOrder(pending, Buy);
    SortIsOrdered(buys);
    SortTies(buys);
    var bought := OrdersOf(fs[n..]);
    SubseqByWeight(bought, SortByWeight(buys));
    SubseqTies(bought, SortByWeight(buys));
    OrderedTail(fs, n);
  }

  lemma OrderedTail(fs: seq<Fill>, n: nat)
    requires n <= |fs| && ByWeight(OrdersOf(fs[n..])) && TiesIncrease(OrdersOf(fs[n..]))
    ensures forall i, j :: n <= i < j < |fs| ==>
      && fs[i].order.weight >= fs[j].order.weight
      && (fs[i].order.weight == fs[j].order.weight ==> fs[i].order.index < fs[j].order.index)
  {
    var tail := OrdersOf(fs[n..]);
    forall i, j | n <= i < j < |fs|
      ensures fs[i].order.weight >= fs[j].order.weight
      ensures fs[i].order.weight == fs[j].order.weight ==> fs[i].order.index < fs[j].order.index
    {
      assert tail[i - n] == fs[i].order && tail[j - n] == fs[j].order;
    }
  }

  /** Every pending SELL is emitted in full, even one of quantity zero; every emitted BUY was pending. */
  lemma RebalanceOrdersFromPending(b: Book, targets: Entries)
    requires Priced(b) && Rebalance(b, targets).Ok?
    ensures var fs := Rebalance(b, targets).value.fills;
      var pending := PendingOf(b, targets).value;
      && (forall p :: p in pending && p.action == Sell ==> exists i :: 0 <= i < |fs| && fs[i] == Fill(p, p.quantity))
      && (forall i :: 0 <= i < |fs| && fs[i].order.action == Sell ==> fs[i].quantity == fs[i].order.quantity)
      && (forall i :: 0 <= i < |fs| ==> fs[i].order in pending)
  {
    ExecuteFromPending(b, PendingOf(b, targets).value);
  }

  lemma ExecuteFromPending(b: Book, pending: seq<Pending>)
    requires PendingFits(pending, |b.holdings|) && PricesPositive(b.holdings)
    ensures var fs := Execute(b, pending).fills;
      && (forall p :: p in pending && p.action == Sell ==> exists i :: 0 <= i < |fs| && fs[i] == Fill(p, p.quantity))
      && (forall i :: 0 <= i < |fs| && fs[i].order.action == Sell ==> fs[i].quantity == fs[i].order.quantity)
      && (forall i :: 0 <= i < |fs| ==> fs[i].order in pending)
  {
    var fs := Execute(b, pending).fills;
    ExecuteSells(b, pending);
    ExecuteBuysPositive(b, pending);
    var sells := OfAction(pending, Sell);
    var n := |sells|;
    forall p | p in pending && p.action == Sell
      ensures exists i :: 0 <= i < |fs| && fs[i] == Fill(p, p.quantity)
    {
      assert p in sells;
      var i :| 0 <= i < n && sells[i] == p;
      assert fs[i] == Fill(p, p.quantity);
    }
    forall i | 0 <= i < |fs| ensures fs[i].order in pending {
      if i >= n {
        ExecuteBuyIsPending(b, pending, i);
      } else {
        assert fs[i].order == sells[i];
      }
    }
  }

  lemma ExecuteBuyIsPending(b: Book, pending: seq<Pending>, i: nat)
    requires PendingFits(pending, |b.holdings|) && PricesPositive(b.holdings)
    requires |OfAction(pending, Sell)| <= i < |Execute(b, pending).fills|
    ensures Execute(b, pending).fills[i].order in pending
  {
    var fs := Execute(b, pending).fills;
    var n := |OfAction(pending, Sell)|;
    ExecuteBuys(b, pending);
    SortedBuysFit(pending, |b.holdings|);
    var bought := OrdersOf(fs[n..]);
    SubseqMembers(bought, SortByWeight(OfAction(pending, Buy)));
    assert fs[n..][i - n] == fs[i];
    assert fs[i].order == bought[i - n];
  }

  /**
   * Conservation: the book afterwards is the book with the returned orders applied; cash moves by
   * exactly their cash flow, each quantity by exactly its orders' net quantity, and a position no
   * order names is untouched.
   */
  lemma RebalanceConservation(b: Book, targets: Entries)
    requires Priced(b) && Rebalance(b, targets).Ok?
    ensures var out := Rebalance(b, targets).value;
      && FillsFit(out.fills, |b.holdings|)
      && out.book == ApplyFills(b, out.fills)
      && SameListing(b.holdings, out.book.holdings)
      && out.book.cash == b.cash + CashFlow(b.holdings, out.fills)
      && (forall j :: 0 <= j < |b.holdings| ==>
            out.book.holdings[j].quantity == b.holdings[j].quantity + NetQuantity(out.fills, j))
      && (forall j :: 0 <= j < |b.holdings| && (forall i :: 0 <= i < |out.fills| ==> out.fills[i].order.index != j) ==>
            out.book.holdings[j] == b.holdings[j])
  {
    var out := Rebalance(b, targets).value;
    ExecuteSells(b, PendingOf(b, targets).value);
    ApplyFillsEffect(b, out.fills);
    forall j | 0 <= j < |b.holdings| && (forall i :: 0 <= i < |out.fills| ==> out.fills[i].order.index != j)
      ensures out.book.holdings[j] == b.holdings[j]
    {
      NoOrderNoChange(out.fills, j);
    }
  }

  /** Stocks value plus cash is the same before and after: every trade is at the current price. */
  lemma RebalanceKeepsTotal(b: Book, targets: Entries)
    requires Priced(b) && Rebalance(b, targets).Ok?
    ensures var out := Rebalance(b, targets).value;
      StocksValue(out.book.holdings) + out.book.cash == StocksValue(b.holdings) + b.cash
  {
    var out := Rebalance(b, targets).value;
    ExecuteSells(b, PendingOf(b, targets).value);
    ApplyFillsKeepsTotal(b, out.fills);
  }

  /** Every returned BUY is under the buy cap for the cash at the moment it executes. */
  lemma RebalanceBuyCap(b: Book, targets: Entries)
    requires Priced(b) && Rebalance(b, targets).Ok?
    ensures var fs := Rebalance(b, targets).value.fills;
      && FillsFit(fs, |b.holdings|)
      && BuysCapped(b, fs)
  {
    ExecuteBuyCap(b, PendingOf(b, targets).value);
  }

  /** The same, read at each BUY: it is capped for the book the orders before it leave. */
  lemma RebalanceBuyCapAt(b: Book, targets: Entries, i: nat)
    requires Priced(b) && Rebalance(b, targets).Ok?
    requires i < |Rebalance(b, targets).value.fills| && Rebalance(b, targets).value.fills[i].order.action == Buy
    ensures var fs := Rebalance(b, targets).value.fills;
      && FillsFit(fs[..i], |b.holdings|)
      && CapHolds(ApplyFills(b, fs[..i]), fs[i])
    ensures var fs := Rebalance(b, targets).value.fills;
      var now := ApplyFills(b, fs[..i]);
      FillsFit(fs[..i], |b.holdings|) && fs[i].quantity <= Affordable(now.cash, now.holdings[fs[i].order.index].price)
  {
    var fs := Rebalance(b, targets).value.fills;
    RebalanceBuyCap(b, targets);
    BuysCappedAt(b, fs, i);
    ApplyFillsPriced(b, fs[..i]);
    CapHoldsGivesFloor(ApplyFills(b, fs[..i]), fs[i]);
  }

  /** With unique symbols, the lookup of each allocation entry finds the position it was computed from. */
  lemma CurrentAllocationsMatch(hs: seq<Holding>)
    requires StocksValue(hs) != 0.0 && UniqueSymbols(hs)
    ensures AllocationsMatch(hs, StocksValue(hs), CurrentAllocations(hs))
  {
    var m := CurrentAllocations(hs);
    AllocationsUnique(hs, StocksValue(hs));
    forall i | 0 <= i < |m| ensures FindBySymbol(hs, m[i].0) == Some(i) {
      FindOwnSymbol(hs, i);
    }
  }

  /**
   * Every pending order is the one its position's drift calls for, sized against the stocks-only value
   * (lines 51, 66-79, 137-139): with base = StocksValue, allocation = value / base and
   * moneyDifference = (allocation - target) * base, its quantity is the whole number of shares that
   * moneyDifference (a SELL) or its magnitude (a BUY) pays for at the position's price.
   */
  lemma PendingOfSized(b: Book, targets: Entries)
    requires Priced(b) && UniqueSymbols(b.holdings)
    ensures var r := PendingOf(b, targets);
      r.Ok? ==> forall i :: 0 <= i < |r.value| ==> IsOrderFor(b.holdings, targets, StocksValue(b.holdings), r.value[i])
    ensures var r := PendingOf(b, targets);
      r.Ok? ==> forall i :: 0 <= i < |r.value| ==>
        var h := b.holdings[r.value[i].index];
        var base := StocksValue(b.holdings);
        HasTarget(targets, h.symbol) &&
        WholeShares(r.value[i].quantity, OrderMoney(r.value[i].action, h.Value() / base, Get(targets, h.symbol).value, base), h.price)
  {
    var hs := b.holdings;
    var base := StocksValue(hs);
    var r := PendingOf(b, targets);
    CurrentAllocationsMatch(hs);
    PendingOrdersSized(hs, targets, base, CurrentAllocations(hs));
    if r.Ok? {
      forall i | 0 <= i < |r.value| ensures
        var h := hs[r.value[i].index];
        HasTarget(targets, h.symbol) &&
        WholeShares(r.value[i].quantity, OrderMoney(r.value[i].action, h.Value() / base, Get(targets, h.symbol).value, base), h.price)
      {
        IsOrderForSize(hs, targets, base, r.value[i]);
      }
    }
  }

  /**
   * With a positive stocks value and no negative target, no SELL asks for more than its position
   * holds, nor for a negative quantity.
   */
  lemma RebalanceSellsWithinHolding(b: Book, targets: Entries)
    requires Priced(b) && StocksValue(b.holdings) > 0.0 && UniqueSymbols(b.holdings) && TargetsNonNegative(targets)
    requires Rebalance(b, targets).Ok?
    ensures var fs := Rebalance(b, targets).value.fills;
      && FillsFit(fs, |b.holdings|)
      && forall i :: 0 <= i < |fs| && fs[i].order.action == Sell ==>
           0 <= fs[i].quantity <= b.holdings[fs[i].order.index].quantity
  {
    var hs := b.holdings;
    var base := StocksValue(hs);
    var m := CurrentAllocations(hs);
    var pending := PendingOf(b, targets).value;
    CurrentAllocationsMatch(hs);
    PendingSellsWithinHolding(hs, targets, base, m);
    RebalanceOrdersFromPending(b, targets);
    ExecuteSells(b, pending);
  }

  /** Orders that never SELL position k, with no negative BUY, never lower its quantity. */
  lemma {:induction false} NoSellNetNonNegative(fs: seq<Fill>, k: nat)
    requires forall i :: 0 <= i < |fs| ==>
      && (fs[i].order.action == Buy ==> fs[i].quantity >= 0)
      && (fs[i].order.action == Sell ==> fs[i].order.index != k)
    ensures NetQuantity(fs, k) >= 0
  {
    if fs != [] {
      assert forall i :: 0 <= i < |fs[1..]| ==> fs[1..][i] == fs[i + 1];
      NoSellNetNonNegative(fs[1..], k);
    }
  }

  /**
   * SELLs in position order sell position k at most once, and by no more than it holds; BUYs only
   * add: the orders take its quantity down by at most what it holds.
   */
  lemma {:induction false} NetWithinHolding(fs: seq<Fill>, k: nat, held: int)
    requires forall i :: 0 <= i < |fs| ==>
      && (fs[i].order.action == Buy ==> fs[i].quantity >= 0)
      && (fs[i].order.action == Sell ==> 0 <= fs[i].quantity && (fs[i].order.index == k ==> fs[i].quantity <= held))
    requires SellsInPositionOrder(fs) && held >= 0
    ensures NetQuantity(fs, k) >= -held
  {
    if fs != [] {
      var rest := fs[1..];
      assert forall i :: 0 <= i < |rest| ==> rest[i] == fs[i + 1];
      if fs[0].order.action == Sell && fs[0].order.index == k {
        assert forall i :: 0 <= i < |rest| && rest[i].order.action == Sell ==> fs[0].order.index < fs[i + 1].order.index;
        NoSellNetNonNegative(rest, k);
      } else {
        assert SellsInPositionOrder(rest);
        NetWithinHolding(rest, k, held);
      }
    }
  }

  /**
   * With non-negative quantities to start with, rebalance() never leaves a negative quantity: a
   * position is sold at most once, never beyond its holding, and BUYs only add.
   */
  lemma RebalanceQuantitiesNonNegative(b: Book, targets: Entries)
    requires Priced(b) && StocksValue(b.holdings) > 0.0 && UniqueSymbols(b.holdings) && TargetsNonNegative(targets)
    requires forall k :: 0 <= k < |b.holdings| ==> b.holdings[k].quantity >= 0
    requires Rebalance(b, targets).Ok?
    ensures var out := Rebalance(b, targets).value;
      forall k :: 0 <= k < |out.book.holdings| ==> out.book.holdings[k].quantity >= 0
  {
    var out := Rebalance(b, targets).value;
    var fs := out.fills;
    RebalanceConservation(b, targets);
    RebalanceSellsWithinHolding(b, targets);
    RebalanceOrdering(b, targets);
    ExecuteBuysPositive(b, PendingOf(b, targets).value);
    ExecuteSells(b, PendingOf(b, targets).value);
    forall k | 0 <= k < |b.holdings| ensures out.book.holdings[k].quantity >= 0 {
      NetWithinHolding(fs, k, b.holdings[k].quantity);
    }
  }
}
