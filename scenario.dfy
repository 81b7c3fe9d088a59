/**
 * The example the repository's main.ts runs, on the value-level model: three positions bought at
 * 150, 300 and 100 against targets of 50%, 20% and 30%, then repriced to 180, 270 and 110.
 */
module Scenario {
  import opened Wrappers
  import opened Valuation
  import opened Drift
  import opened Sorting
  import opened Execution
  import opened Rebalancing

  const Targets: Entries := [("AAPL", 0.5), ("META", 0.2), ("FNTL", 0.3)]

  /** After the price change: floor(5000 / 150), floor(2000 / 300) and floor(3000 / 100) shares, and 250 of cash left. */
  const Repriced: Book := Book([Holding("AAPL", 180.0, 33), Holding("META", 270.0, 6), Holding("FNTL", 110.0, 30)], 250.0)

  /** Each symbol's share of the stocks value 5940 + 1620 + 3300 = 10860. */
  const Allocations: Entries := [("AAPL", 5940.0 / 10860.0), ("META", 1620.0 / 10860.0), ("FNTL", 3300.0 / 10860.0)]

  /** AAPL is 510/10860 above its target, META 552/10860 below it. */
  const SellAapl: Pending := Pending(0, 2, Sell, 510.0 / 10860.0)
  const BuyMeta: Pending := Pending(1, 2, Buy, 552.0 / 10860.0)

  const AfterSell: Book := Book([Holding("AAPL", 180.0, 31), Holding("META", 270.0, 6), Holding("FNTL", 110.0, 30)], 610.0)
  const Final: Book := Book([Holding("AAPL", 180.0, 31), Holding("META", 270.0, 8), Holding("FNTL", 110.0, 30)], 70.0)

  lemma RepricedValue()
    ensures StocksValue(Repriced.holdings) == 10860.0
  {
    var hs := Repriced.holdings;
    assert hs[1..][1..][1..] == [];
  }

  lemma RepricedAllocations()
    ensures Priced(Repriced) && CurrentAllocations(Repriced.holdings) == Allocations
  {
    RepricedValue();
    var hs := Repriced.holdings;
    assert hs[..1][..0] == [];
    assert AllocationsOver(hs[..1], 10860.0) == Allocations[..1];
    assert hs[..2][..1] == hs[..1];
    assert AllocationsOver(hs[..2], 10860.0) == Allocations[..2];
    assert hs[..3][..2] == hs[..2] && hs[..3] == hs;
  }

  /** The loop body for AAPL: 5940/10860 - 0.5 is above the band, a SELL of floor(510 / 180) = 2. */
  lemma AaplOrder()
    ensures PricesPositive(Repriced.holdings)
    ensures PendingFor(Repriced.holdings, Targets, 10860.0, Allocations[0]) == Ok([SellAapl])
  {
    assert FindBySymbol(Repriced.holdings, "AAPL") == Some(0);
    assert Get(Targets, "AAPL") == Some(0.5);
    assert (5940.0 / 10860.0 - 0.5) * 10860.0 == 510.0;
    assert (510.0 / 180.0).Floor == 2;
  }

  /** The loop body for META: 1620/10860 - 0.2 is below the band, a BUY of floor(552 / 270) = 2. */
  lemma MetaOrder()
    ensures PricesPositive(Repriced.holdings)
    ensures PendingFor(Repriced.holdings, Targets, 10860.0, Allocations[1]) == Ok([BuyMeta])
  {
    assert FindBySymbol(Repriced.holdings, "META") == Some(1);
    assert Get(Targets, "META") == Some(0.2);
    assert Abs((1620.0 / 10860.0 - 0.2) * 10860.0) == 552.0;
    assert (552.0 / 270.0).Floor == 2;
  }

  /** The loop body for FNTL: 3300/10860 - 0.3 = 42/10860 lies within the band, no order. */
  lemma FntlOrder()
    ensures PricesPositive(Repriced.holdings)
    ensures PendingFor(Repriced.holdings, Targets, 10860.0, Allocations[2]) == Ok([])
  {
    assert FindBySymbol(Repriced.holdings, "FNTL") == Some(2);
    assert Get(Targets, "FNTL") == Some(0.3);
  }

  /** Three allocation entries: the loop's result is the three bodies' orders in entry order. */
  lemma {:induction false} PendingOfThree(hs: seq<Holding>, targets: Entries, base: real, m: Entries, o0: seq<Pending>, o1: seq<Pending>, o2: seq<Pending>)
    requires PricesPositive(hs) && |m| == 3
    requires PendingFor(hs, targets, base, m[0]) == Ok(o0)
    requires PendingFor(hs, targets, base, m[1]) == Ok(o1)
    requires PendingFor(hs, targets, base, m[2]) == Ok(o2)
    ensures PendingOrders(hs, targets, base, m) == Ok(o0 + o1 + o2)
  {
    assert m[3..] == [];
    PendingOrdersUnroll(hs, targets, base, m, 2);
    PendingOrdersUnroll(hs, targets, base, m, 1);
    PendingOrdersUnroll(hs, targets, base, m, 0);
    assert m[0..] == m;
    assert o0 + (o1 + (o2 + [])) == o0 + o1 + o2;
  }

  lemma RepricedPending()
    ensures Priced(Repriced) && PendingOf(Repriced, Targets) == Ok([SellAapl, BuyMeta])
  {
    RepricedAllocations();
    RepricedValue();
    AaplOrder();
    MetaOrder();
    FntlOrder();
    PendingOfThree(Repriced.holdings, Targets, 10860.0, Allocations, [SellAapl], [BuyMeta], []);
    assert [SellAapl] + [BuyMeta] + [] == [SellAapl, BuyMeta];
  }

  /** One BUY with a positive cap: the BUY loop emits it at the capped quantity. */
  lemma BuyFillsSingle(b: Book, p: Pending)
    requires p.index < |b.holdings| && PricesPositive(b.holdings) && CappedQuantity(b, p) > 0
    ensures BuyFills(b, [p]) == [Fill(p, CappedQuantity(b, p))]
  {
    assert [p][1..] == [];
  }

  /** The SELL frees 2 * 180 = 360; the BUY is capped at min(2, floor(610 / 270)) = 2 and spends 540. */
  lemma RepricedExecute()
    ensures PendingFits([SellAapl, BuyMeta], 3) && PricesPositive(Repriced.holdings)
    ensures FillsFit([Fill(SellAapl, 2)], 3) && ApplyFills(Repriced, [Fill(SellAapl, 2)]) == AfterSell
    ensures Execute(Repriced, [SellAapl, BuyMeta]) == Outcome([Fill(SellAapl, 2), Fill(BuyMeta, 2)], Final)
  {
    ApplyFillsOne(Repriced, Fill(SellAapl, 2));
    ExecuteWithCash(250.0);
  }

  /**
   * rebalance() on the repriced portfolio returns SELL 2 AAPL then BUY 2 META, and leaves 31 AAPL,
   * 8 META, 30 FNTL and 70 of cash.
   */
  lemma RepricedRebalance()
    ensures Priced(Repriced)
    ensures Rebalance(Repriced, Targets) == Ok(Outcome([Fill(SellAapl, 2), Fill(BuyMeta, 2)], Final))
  {
    RepricedPending();
    RepricedExecute();
  }

  /**
   * The same holdings with 5250 of cash. The orders do not change, because moneyDifference is scaled
   * by the stocks value 10860 alone; a base of stocks plus cash (16110) would size SELL 4 AAPL and
   * BUY 3 META instead (StocksAndCashBase). The BUY's cap floor(5610 / 270) = 20 is not binding.
   */
  const CashRich: Book := Book(Repriced.holdings, 5250.0)

  /** From any cash of at least 180, the SELL frees 360 and the BUY of 2 META fits under the cap and spends 540. */
  lemma ExecuteWithCash(cash: real)
    requires cash >= 180.0
    ensures PendingFits([SellAapl, BuyMeta], 3) && PricesPositive(Repriced.holdings)
    ensures Execute(Book(Repriced.holdings, cash), [SellAapl, BuyMeta])
      == Outcome([Fill(SellAapl, 2), Fill(BuyMeta, 2)], Book(Final.holdings, cash + 360.0 - 540.0))
  {
    var b := Book(Repriced.holdings, cash);
    var pending := [SellAapl, BuyMeta];
    assert pending[1..] == [BuyMeta] && [BuyMeta][1..] == [];
    assert OfAction([BuyMeta], Sell) == [] && OfAction([BuyMeta], Buy) == [BuyMeta];
    assert OfAction(pending, Sell) == [SellAapl];
    assert OfAction(pending, Buy) == [BuyMeta];
    assert SortByWeight([BuyMeta]) == [BuyMeta] by {
      assert [BuyMeta][..0] == [];
    }
    var sells := SellFills([SellAapl]);
    assert sells == [Fill(SellAapl, 2)];
    ApplyFillsOne(b, Fill(SellAapl, 2));
    var afterSell := Book(AfterSell.holdings, cash + 360.0);
    assert ApplyFills(b, sells) == afterSell;
    assert Affordable(cash + 360.0, 270.0) >= 2;
    assert CappedQuantity(afterSell, BuyMeta) == 2;
    var bought := BuyFills(afterSell, [BuyMeta]);
    BuyFillsSingle(afterSell, BuyMeta);
    ApplyFillsOne(afterSell, Fill(BuyMeta, 2));
    assert ApplyFills(afterSell, bought) == Book(Final.holdings, cash + 360.0 - 540.0);
  }

  /** rebalance() with 5250 of cash returns the same SELL 2 AAPL and BUY 2 META, and ends with cash 5070. */
  lemma CashRichRebalance()
    ensures Priced(CashRich)
    ensures Rebalance(CashRich, Targets) == Ok(Outcome([Fill(SellAapl, 2), Fill(BuyMeta, 2)], Book(Final.holdings, 5070.0)))
  {
    RepricedPending();
    assert PendingOf(CashRich, Targets) == PendingOf(Repriced, Targets);
    ExecuteWithCash(5250.0);
  }

  /**
   * What a base of stocks plus cash (10860 + 5250 = 16110) would size from the same allocations:
   * SELL floor(510 / 10860 * 16110 / 180) = 4 AAPL and BUY floor(552 / 10860 * 16110 / 270) = 3 META,
   * not the SELL 2 / BUY 2 that rebalance() returns for CashRich.
   */
  lemma StocksAndCashBase()
    ensures PricesPositive(Repriced.holdings)
    ensures PendingFor(Repriced.holdings, Targets, 16110.0, Allocations[0]) == Ok([Pending(0, 4, Sell, 510.0 / 10860.0)])
    ensures PendingFor(Repriced.holdings, Targets, 16110.0, Allocations[1]) == Ok([Pending(1, 3, Buy, 552.0 / 10860.0)])
  {
    assert FindBySymbol(Repriced.holdings, "AAPL") == Some(0);
    assert FindBySymbol(Repriced.holdings, "META") == Some(1);
    assert Get(Targets, "AAPL") == Some(0.5);
    assert Get(Targets, "META") == Some(0.2);
    assert (5940.0 / 10860.0 - 0.5) * 16110.0 == 510.0 * 16110.0 / 10860.0;
    assert (510.0 * 16110.0 / 10860.0 / 180.0).Floor == 4;
    assert Abs((1620.0 / 10860.0 - 0.2) * 16110.0) == 552.0 * 16110.0 / 10860.0;
    assert (552.0 * 16110.0 / 10860.0 / 270.0).Floor == 3;
  }
}
