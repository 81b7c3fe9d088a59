/**
 * The example program on the classes: three stocks, a portfolio funded with 10000, the 50/20/30
 * targets, the initial purchases, the price moves and one rebalance. The value-level steps are
 * the lemmas of Scenario; the methods here show the objects go through the same states.
 */
module Walkthrough {
  import opened Wrappers
  import opened Valuation
  import opened Drift
  import opened Execution
  import opened Rebalancing
  import opened StockEntity
  import opened PositionEntity
  import opened PortfolioEntity
  import opened Scenario

  /** Step 1: the three stocks at their initial prices. */
  method NewStocks() returns (apple: Stock, meta: Stock, fintual: Stock)
    ensures fresh(apple) && fresh(meta) && fresh(fintual)
    ensures apple != meta && meta != fintual && apple != fintual
    ensures apple.symbol == "AAPL" && meta.symbol == "META" && fintual.symbol == "FNTL"
    ensures apple.price == 150.0 && meta.price == 300.0 && fintual.price == 100.0
  {
    apple := new Stock("AAPL", Some(150.0));
    meta := new Stock("META", Some(300.0));
    fintual := new Stock("FNTL", Some(100.0));
  }

  /** The shares step 3 buys of one stock: floor(10000 * weight / price). */
  method InitialShares(s: Stock, weight: real) returns (n: int)
    requires s.price > 0.0
    ensures n == (10000.0 * weight / s.price).Floor
  {
    var initialValue := 10000.0;
    var price := s.GetCurrentPrice();
    assert initialValue * weight / price == 10000.0 * weight / s.price;
    n := (initialValue * weight / price).Floor;
  }

  lemma InitialSharesAre()
    ensures (10000.0 * 0.5 / 150.0).Floor == 33
    ensures (10000.0 * 0.2 / 300.0).Floor == 6
    ensures (10000.0 * 0.3 / 100.0).Floor == 30
  {
    assert 10000.0 * 0.5 / 150.0 == 33.0 + 50.0 / 150.0;
    assert 10000.0 * 0.2 / 300.0 == 6.0 + 200.0 / 300.0;
  }

  /** Step 3: the three purchases, each paid out of cash; 250 of the 10000 is left over. */
  method Purchase(p: Portfolio, apple: Stock, meta: Stock, fintual: Stock)
    requires p.Valid() && p.positions == [] && p.cashDrag == 10000.0
    requires apple.symbol == "AAPL" && meta.symbol == "META" && fintual.symbol == "FNTL"
    requires apple.price == 150.0 && meta.price == 300.0 && fintual.price == 100.0
    modifies p`positions, p`cashDrag
    ensures p.Valid() && |p.positions| == 3
    ensures fresh(p.positions[0]) && fresh(p.positions[1]) && fresh(p.positions[2])
    ensures p.positions[0].stock == apple && p.positions[1].stock == meta && p.positions[2].stock == fintual
    ensures p.Book() == Book([Holding("AAPL", 150.0, 33), Holding("META", 300.0, 6), Holding("FNTL", 100.0, 30)], 250.0)
  {
    InitialSharesAre();
    var appleShares := InitialShares(apple, 0.5);
    var metaShares := InitialShares(meta, 0.2);
    var fintualShares := InitialShares(fintual, 0.3);
    assert Views([]) == [];
    p.AddPosition(apple, appleShares);
    assert p.Holdings() == [Holding("AAPL", 150.0, 33)];
    p.AddPosition(meta, metaShares);
    assert p.Holdings() == [Holding("AAPL", 150.0, 33), Holding("META", 300.0, 6)];
    p.AddPosition(fintual, fintualShares);
  }

  /** Step 5: the new prices 180, 270 and 110 reach the positions through their stocks. */
  method Reprice(p: Portfolio, apple: Stock, meta: Stock, fintual: Stock)
    requires apple != meta && meta != fintual && apple != fintual
    requires |p.positions| == 3
    requires p.positions[0].stock == apple && p.positions[1].stock == meta && p.positions[2].stock == fintual
    requires p.Book() == Book([Holding("AAPL", 150.0, 33), Holding("META", 300.0, 6), Holding("FNTL", 100.0, 30)], 250.0)
    modifies apple, meta, fintual
    ensures p.Book() == Repriced
  {
    apple.CurrentPrice(180.0);
    meta.CurrentPrice(270.0);
    fintual.CurrentPrice(110.0);
  }

  /**
   * Step 7: rebalance() on a portfolio whose value-level rebalance sells from the first position
   * and buys for the second returns those two orders, naming the two positions' stocks.
   */
  method RebalanceTo(p: Portfolio, apple: Stock, meta: Stock, out: Outcome) returns (r: Result<seq<Order>, RebalanceError>)
    requires p.Valid() && |p.positions| == 3
    requires p.positions[0].stock == apple && p.positions[1].stock == meta
    requires Priced(p.Book()) && Rebalancing.Rebalance(p.Book(), p.targetAllocations) == Ok(out)
    requires out.fills == [Fill(SellAapl, 2), Fill(BuyMeta, 2)]
    modifies p`cashDrag, p.positions
    ensures r == Ok([Order(apple, 2, Sell), Order(meta, 2, Buy)])
    ensures p.Book() == out.book
  {
    r := p.Rebalance();
    assert ToOrders(p.positions, out.fills) == [Order(apple, 2, Sell), Order(meta, 2, Buy)];
  }

  /** Steps 1 to 5: the portfolio as it stands, repriced, just before rebalance(). */
  method Prepare() returns (p: Portfolio, apple: Stock, meta: Stock)
    ensures p.Valid() && |p.positions| == 3
    ensures fresh(p) && fresh(p.positions[0]) && fresh(p.positions[1]) && fresh(p.positions[2])
    ensures p.positions[0].stock == apple && p.positions[1].stock == meta
    ensures Priced(p.Book()) && Rebalancing.Rebalance(p.Book(), p.targetAllocations) == Ok(Outcome([Fill(SellAapl, 2), Fill(BuyMeta, 2)], Final))
  {
    var fintual;
    apple, meta, fintual := NewStocks();
    p := new Portfolio("My Investment Portfolio", 10000.0);
    assert SumValues(Targets) == 1.0;
    var ok := p.SetTargetAllocations(Targets);
    Purchase(p, apple, meta, fintual);
    Reprice(p, apple, meta, fintual);
    RepricedRebalance();
  }

  /**
   * The whole example: rebalance() sells 2 AAPL and, with the 360 that frees, buys 2 META; FNTL
   * is within its band. The portfolio ends with 31, 8 and 30 shares and 70 in cash.
   */
  method Example() returns (r: Result<seq<Order>, RebalanceError>, p: Portfolio, apple: Stock, meta: Stock)
    ensures |p.positions| == 3 && p.positions[0].stock == apple && p.positions[1].stock == meta
    ensures apple.symbol == "AAPL" && meta.symbol == "META"
    ensures r == Ok([Order(apple, 2, Sell), Order(meta, 2, Buy)])
    ensures p.Book() == Final
  {
    p, apple, meta := Prepare();
    r := RebalanceTo(p, apple, meta, Outcome([Fill(SellAapl, 2), Fill(BuyMeta, 2)], Final));
  }
}
