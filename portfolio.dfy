/**
 * The Portfolio class: a list of positions, a target-allocation map, the fixed 0.03 threshold and a cash
 * balance (_cashDrag). Its methods update these in place and are proved to do to the portfolio
 * exactly what the value-level functions of Rebalancing and Execution describe.
 */
module PortfolioEntity {
  import opened Wrappers
  import opened StockEntity
  import opened PositionEntity
  import opened Valuation
  import opened Drift
  import opened Sorting
  import opened Execution
  import opened Rebalancing

  /** An order as rebalance() returns it: the stock traded, the quantity and the action. */
  datatype Order = Order(stock: Stock, quantity: int, action: Action)

  /** The error setTargetAllocations throws, with the sum it found. */
  datatype AllocationError = AllocationsMustSumToOne(total: real)

  /** The returned orders for a list of fills: each names the stock of the position it trades. */
  function ToOrders(ps: seq<Position>, fs: seq<Fill>): (os: seq<Order>)
    requires FillsFit(fs, |ps|)
    ensures |os| == |fs|
    ensures forall i :: 0 <= i < |fs| ==>
      os[i] == Order(ps[fs[i].order.index].stock, fs[i].quantity, fs[i].order.action)
  {
    if fs == [] then []
    else [Order(ps[fs[0].order.index].stock, fs[0].quantity, fs[0].order.action)] + ToOrders(ps, fs[1..])
  }

  lemma ToOrdersSnoc(ps: seq<Position>, fs: seq<Fill>, i: nat)
    requires FillsFit(fs, |ps|) && i < |fs|
    ensures FillsFit(fs[..i + 1], |ps|)
    ensures ToOrders(ps, fs[..i + 1]) == ToOrders(ps, fs[..i]) + [Order(ps[fs[i].order.index].stock, fs[i].quantity, fs[i].order.action)]
  {
  }

  lemma ToOrdersAppend(ps: seq<Position>, fs: seq<Fill>, f: Fill)
    requires FillsFit(fs, |ps|) && f.order.index < |ps|
    ensures FillsFit(fs + [f], |ps|)
    ensures ToOrders(ps, fs + [f]) == ToOrders(ps, fs) + [Order(ps[f.order.index].stock, f.quantity, f.order.action)]
  {
    assert forall i :: 0 <= i < |fs| ==> (fs + [f])[i] == fs[i];
  }

  lemma ToOrdersConcat(ps: seq<Position>, xs: seq<Fill>, ys: seq<Fill>)
    requires FillsFit(xs, |ps|) && FillsFit(ys, |ps|)
    ensures FillsFit(xs + ys, |ps|)
    ensures ToOrders(ps, xs + ys) == ToOrders(ps, xs) + ToOrders(ps, ys)
  {
    assert forall i :: 0 <= i < |xs| ==> (xs + ys)[i] == xs[i];
    assert forall i :: 0 <= i < |ys| ==> (xs + ys)[|xs| + i] == ys[i];
  }

  /** calculatePortfolioValue: the sum of getPositionValue() over the positions, each at its stock's current price. */
  function PositionsValue(ps: seq<Position>): (v: real)
    reads Footprint(ps)
    ensures v == StocksValue(Views(ps))
    decreases |ps|
  {
    if ps == [] then 0.0
    else
      FootprintSubset(ps, ps[1..]);
      assert ps[0] in ps;
      assert Views(ps)[1..] == Views(ps[1..]);
      ps[0].GetPositionValue() + PositionsValue(ps[1..])
  }

  /**
   * calculateCurrentAllocations: the fold over the positions that sets each symbol's entry to
   * getPositionValue() / total, in position order.
   */
  function PositionAllocations(ps: seq<Position>, total: real): (m: Entries)
    requires total != 0.0
    reads Footprint(ps)
    ensures m == AllocationsOver(Views(ps), total)
    decreases |ps|
  {
    if ps == [] then []
    else
      var last := ps[|ps| - 1];
      FootprintSubset(ps, ps[..|ps| - 1]);
      assert last in ps;
      assert Views(ps)[..|ps| - 1] == Views(ps[..|ps| - 1]);
      Set(PositionAllocations(ps[..|ps| - 1], total), last.GetStock().GetSymbol(), last.GetPositionValue() / total)
  }

  class Portfolio {
    const name: string
    var positions: seq<Position>
    var targetAllocations: Entries
    var cashDrag: real

    /** Every addPosition creates a new Position: no position object is listed twice. */
    ghost predicate Valid()
      reads this
    {
      forall i, j :: 0 <= i < j < |positions| ==> positions[i] != positions[j]
    }

    /** The positions as they stand now, each at its stock's current price. */
    function Holdings(): seq<Holding>
      reads this, Footprint(positions)
    {
      Views(positions)
    }

    /** The state execution changes: the positions and the cash balance. */
    function Book(): Execution.Book
      reads this, Footprint(positions)
    {
      Execution.Book(Holdings(), cashDrag)
    }

    constructor (name: string, cash: real)
      ensures this.name == name && positions == [] && targetAllocations == [] && cashDrag == cash
      ensures Valid()
    {
      this.name := name;
      positions := [];
      targetAllocations := [];
      cashDrag := cash;
    }

    function GetPositions(): (ps: seq<Position>)
      reads this
      ensures ps == positions
    {
      positions
    }

    function GetCashDrag(): (c: real)
      reads this
      ensures c == cashDrag
    {
      cashDrag
    }

    /**
     * Pays price * quantity out of cash, with no check that cash suffices, and appends exactly one
     * new position; stocks value plus cash is unchanged (AddedPositionKeepsTotal).
     */
    method AddPosition(stock: Stock, quantity: int)
      requires Valid()
      modifies this`positions, this`cashDrag
      ensures Valid()
      ensures cashDrag == old(cashDrag) - stock.price * quantity as real
      ensures |positions| == |old(positions)| + 1 && positions[..|old(positions)|] == old(positions)
      ensures fresh(positions[|positions| - 1]) && positions[|positions| - 1].stock == stock
      ensures Holdings() == old(Holdings()) + [Holding(stock.symbol, stock.price, quantity)]
    {
      ghost var listed := positions;
      var position := new Position(stock, quantity);
      assert Views(listed) == old(Holdings());
      positions, cashDrag := positions + [position], cashDrag - stock.GetCurrentPrice() * quantity as real;
      ViewsAppend(listed, position);
    }

    /**
     * Replaces the target map when its values sum to 1 within 0.001; otherwise fails with the sum
     * found and leaves the previous map in place.
     */
    method SetTargetAllocations(allocations: Entries) returns (r: Result<(), AllocationError>)
      modifies this`targetAllocations
      ensures r.Ok? <==> Abs(SumValues(allocations) - 1.0) <= 0.001
      ensures r.Ok? ==> targetAllocations == allocations
      ensures r.Err? ==> r.error == AllocationsMustSumToOne(SumValues(allocations)) && targetAllocations == old(targetAllocations)
    {
      var total := SumValues(allocations);
      if Abs(total - 1.0) > 0.001 {
        return Err(AllocationsMustSumToOne(total));
      }
      targetAllocations := allocations;
      return Ok(());
    }

    function CalculatePortfolioValue(): (v: real)
      reads this, Footprint(positions)
      ensures v == StocksValue(Holdings())
    {
      PositionsValue(positions)
    }

    function CalculateCurrentAllocations(): (m: Entries)
      requires StocksValue(Holdings()) != 0.0
      reads this, Footprint(positions)
      ensures m == CurrentAllocations(Holdings())
    {
      PositionAllocations(positions, CalculatePortfolioValue())
    }

    /**
     * After one position's quantity moved by delta and nothing else about the positions changed,
     * the snapshot is the earlier one with that position's quantity moved by delta.
     */
    lemma TradedOne(before: Execution.Book, k: nat, delta: int)
      requires Valid() && k < |positions| && |before.holdings| == |positions|
      requires forall m :: 0 <= m < |positions| && m != k ==> positions[m].View() == before.holdings[m]
      requires positions[k].View() == before.holdings[k].(quantity := before.holdings[k].quantity + delta)
      ensures Holdings() == before.holdings[k := before.holdings[k].(quantity := before.holdings[k].quantity + delta)]
    {
    }

    /**
     * rebalance(): on an error nothing has changed and the error is the one the value-level
     * rebalance gives; otherwise the returned orders and the new positions and cash are exactly
     * those of the value-level rebalance of the portfolio as it stood.
     */
    method Rebalance() returns (r: Result<seq<Order>, RebalanceError>)
      requires Valid() && Priced(Book())
      modifies this`cashDrag, positions
      ensures Valid() && positions == old(positions)
      ensures old(Rebalancing.Rebalance(Book(), targetAllocations)).Err? ==>
        && r == Err(old(Rebalancing.Rebalance(Book(), targetAllocations)).error)
        && Book() == old(Book())
      ensures old(Rebalancing.Rebalance(Book(), targetAllocations)).Ok? ==>
        && FillsFit(old(Rebalancing.Rebalance(Book(), targetAllocations)).value.fills, |positions|)
        && r == Ok(ToOrders(positions, old(Rebalancing.Rebalance(Book(), targetAllocations)).value.fills))
        && Book() == old(Rebalancing.Rebalance(Book(), targetAllocations)).value.book
    {
      ghost var before := Book();
      var pending := SizeOrders();
      if pending.Err? {
        return Err(pending.error);
      }
      ghost var out := Execute(before, pending.value);
      assert Rebalancing.Rebalance(before, targetAllocations) == Ok(out);
      var orders := ExecuteOrders(pending.value);
      return Ok(orders);
    }

    /**
     * The first half of rebalance(): the stocks value, the current allocations, and the loop over
     * them that sizes one pending order per position outside its band. Nothing changes.
     */
    method SizeOrders() returns (r: Result<seq<Pending>, RebalanceError>)
      requires Priced(Book())
      ensures Book() == old(Book())
      ensures r == PendingOf(old(Book()), targetAllocations)
    {
      ghost var before := Book();
      var portfolioValue := CalculatePortfolioValue();
      var currentAllocations := CalculateCurrentAllocations();
      r := CollectPendingOrders(Holdings(), targetAllocations, portfolioValue, currentAllocations);
      assert Book() == before;
    }

    /**
     * executeOrders(): every pending SELL in order, then the pending BUYs sorted by weight, each
     * capped by the cash at that moment and skipped when the cap is zero. The orders returned and
     * the new positions and cash are exactly those of the value-level Execute.
     */
    method ExecuteOrders(pendingOrders: seq<Pending>) returns (orders: seq<Order>)
      requires Valid() && PendingFits(pendingOrders, |positions|) && PricesPositive(Holdings())
      modifies this`cashDrag, positions
      ensures Valid() && positions == old(positions)
      ensures FillsFit(old(Execute(Book(), pendingOrders)).fills, |positions|)
      ensures orders == ToOrders(positions, old(Execute(Book(), pendingOrders)).fills)
      ensures Book() == old(Execute(Book(), pendingOrders)).book
    {
      ghost var start := Book();
      ExecuteSplit(start, pendingOrders);
      var pendingSells := OfAction(pendingOrders, Sell);
      OfActionFits(pendingOrders, Sell, |positions|);
      ghost var sellFills := SellFills(pendingSells);
      var sold := ExecuteSellOrders(pendingSells);
      ghost var afterSells := Book();
      var pendingBuys := OfAction(pendingOrders, Buy);
      var sorted := SortedCopy(pendingBuys);
      assert Book() == afterSells;
      SortedBuysFit(pendingOrders, |positions|);
      ghost var buyFills := BuyFills(afterSells, sorted[..]);
      assert Execute(start, pendingOrders).fills == sellFills + buyFills;
      var bought := ExecuteBuyOrders(sorted[..]);
      assert Book() == ApplyFills(afterSells, buyFills);
      orders := sold + bought;
      ToOrdersConcat(positions, sellFills, buyFills);
      ApplyFillsConcat(start, sellFills, buyFills);
    }

    /** The SELL loop of executeOrders: each pending SELL executes in full, in order. */
    method ExecuteSellOrders(sells: seq<Pending>) returns (orders: seq<Order>)
      requires Valid() && PendingFits(sells, |positions|) && AllOf(sells, Sell)
      modifies this`cashDrag, positions
      ensures Valid() && positions == old(positions)
      ensures FillsFit(SellFills(sells), |positions|)
      ensures orders == ToOrders(positions, SellFills(sells))
      ensures Book() == ApplyFills(old(Book()), SellFills(sells))
    {
      ghost var start := Book();
      ghost var fills := SellFills(sells);
      orders := [];
      var i := 0;
      while i < |sells|
        invariant 0 <= i <= |sells|
        invariant Valid() && positions == old(positions) && |start.holdings| == |positions|
        invariant FillsFit(fills, |positions|)
        invariant Book() == ApplyFills(start, fills[..i])
        invariant orders == ToOrders(positions, fills[..i])
      {
        var pendingSell := sells[i];
        var order := SellShares(Fill(pendingSell, pendingSell.quantity));
        orders := orders + [order];
        ApplyFillsSnoc(start, fills, i);
        ToOrdersSnoc(positions, fills, i);
        i := i + 1;
      }
      assert fills[..i] == fills;
    }

    /**
     * The BUY loop of executeOrders over the sorted BUYs: each is capped at floor(cash / price) for
     * the cash at that moment and executes only when the cap leaves something to buy.
     */
    method ExecuteBuyOrders(buys: seq<Pending>) returns (orders: seq<Order>)
      requires Valid() && PendingFits(buys, |positions|) && AllOf(buys, Buy) && PricesPositive(Holdings())
      modifies this`cashDrag, positions
      ensures Valid() && positions == old(positions)
      ensures FillsFit(old(BuyFills(Book(), buys)), |positions|)
      ensures orders == ToOrders(positions, old(BuyFills(Book(), buys)))
      ensures Book() == old(ApplyFills(Book(), BuyFills(Book(), buys)))
    {
      ghost var start := Book();
      ghost var all := BuyFills(start, buys);
      ghost var bought: seq<Fill> := [];
      orders := [];
      var j := 0;
      while j < |buys|
        invariant 0 <= j <= |buys|
        invariant Valid() && positions == old(positions) && |start.holdings| == |positions|
        invariant FillsFit(bought, |positions|)
        invariant Book() == ApplyFills(start, bought)
        invariant bought + BuyFills(Book(), buys[j..]) == all
        invariant orders == ToOrders(positions, bought)
      {
        BuyTurn(start, bought, buys, j);
        var pendingBuy := buys[j];
        var quantityToBuy := QuantityToBuy(pendingBuy);
        if quantityToBuy > 0 {
          var f := Fill(pendingBuy, quantityToBuy);
          var order := BuyShares(f);
          orders := orders + [order];
          ToOrdersAppend(positions, bought, f);
          bought := bought + [f];
        }
        j := j + 1;
      }
      assert buys[j..] == [];
      assert bought + [] == bought;
    }

    /**
     * The BUY loop's cap: the pending quantity, but no more than the whole shares the cash balance
     * pays for at the stock's current price.
     */
    function QuantityToBuy(p: Pending): (q: int)
      requires p.index < |positions| && PricesPositive(Holdings())
      reads this, Footprint(positions)
      ensures q == CappedQuantity(Book(), p)
    {
      assert positions[p.index] in positions;
      var stockPrice := positions[p.index].GetStock().GetCurrentPrice();
      var maxQuantityToBuy := (cashDrag / stockPrice).Floor;
      Min(p.quantity, maxQuantityToBuy)
    }

    /** One SELL of executeOrders' first loop: the position gives up the quantity, cash gains price times it. */
    method SellShares(f: Fill) returns (order: Order)
      requires Valid() && f.order.index < |positions| && f.order.action == Sell
      modifies this`cashDrag, positions[f.order.index]
      ensures Valid() && positions == old(positions)
      ensures order == Order(positions[f.order.index].stock, f.quantity, Sell)
      ensures Book() == Step(old(Book()), f)
    {
      var k := f.order.index;
      var position := positions[k];
      var stock := position.GetStock();
      var stockPrice := stock.GetCurrentPrice();
      ghost var before := Book();
      order := Order(stock, f.quantity, Sell);
      position.Sell(f.quantity);
      cashDrag := cashDrag + stockPrice * f.quantity as real;
      TradedOne(before, k, -f.quantity);
      StepIs(before, f, positions[k].quantity, cashDrag);
    }

    /** One BUY of executeOrders' second loop: the position gains the quantity, cash pays price times it. */
    method BuyShares(f: Fill) returns (order: Order)
      requires Valid() && f.order.index < |positions| && f.order.action == Buy
      modifies this`cashDrag, positions[f.order.index]
      ensures Valid() && positions == old(positions)
      ensures order == Order(positions[f.order.index].stock, f.quantity, Buy)
      ensures Book() == Step(old(Book()), f)
    {
      var k := f.order.index;
      var position := positions[k];
      var stock := position.GetStock();
      var stockPrice := stock.GetCurrentPrice();
      ghost var before := Book();
      order := Order(stock, f.quantity, Buy);
      position.Buy(f.quantity);
      cashDrag := cashDrag - stockPrice * f.quantity as real;
      TradedOne(before, k, f.quantity);
      StepIs(before, f, positions[k].quantity, cashDrag);
    }
  }

  /**
   * The loop of rebalance() over the current allocations: for each entry the target lookup, the
   * position lookup and the order its drift calls for; the first failed lookup ends it with its error.
   * The positions are read through their snapshot, which the loop does not change.
   */
  method CollectPendingOrders(hs: seq<Holding>, targetAllocations: Entries, portfolioValue: real, currentAllocations: Entries)
    returns (r: Result<seq<Pending>, RebalanceError>)
    requires PricesPositive(hs)
    ensures r == PendingOrders(hs, targetAllocations, portfolioValue, currentAllocations)
  {
    ghost var spec := PendingOrders(hs, targetAllocations, portfolioValue, currentAllocations);
    var pendingOrders: seq<Pending> := [];
    assert currentAllocations[0..] == currentAllocations;
    assert spec == Prepend([], spec) by {
      if spec.Ok? {
        assert [] + spec.value == spec.value;
      }
    }
    var i := 0;
    while i < |currentAllocations|
      invariant 0 <= i <= |currentAllocations|
      invariant spec == Prepend(pendingOrders, PendingOrders(hs, targetAllocations, portfolioValue, currentAllocations[i..]))
    {
      var (symbol, stockAllocation) := currentAllocations[i];
      PendingOrdersUnroll(hs, targetAllocations, portfolioValue, currentAllocations, i);
      var targetAllocation := Get(targetAllocations, symbol);
      if targetAllocation.None? || targetAllocation.value == 0.0 {
        return Err(TargetNotFound(symbol));
      }
      var found := FindBySymbol(hs, symbol);
      if found.None? {
        return Err(PositionNotFound(symbol));
      }
      var next := OrderFor(found.value, hs[found.value].price, stockAllocation, targetAllocation.value, portfolioValue);
      var rest := PendingOrders(hs, targetAllocations, portfolioValue, currentAllocations[i + 1..]);
      assert rest.Ok? ==> pendingOrders + (next + rest.value) == (pendingOrders + next) + rest.value;
      pendingOrders := pendingOrders + next;
      i := i + 1;
    }
    assert currentAllocations[i..] == [];
    assert pendingOrders + [] == pendingOrders;
    return Ok(pendingOrders);
  }
}
