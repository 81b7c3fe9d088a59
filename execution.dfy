/**
 * executeOrders(), the second half of rebalance(): every pending SELL in discovery order, then the
 * pending BUYs by descending weight, each capped by the cash left at that moment and dropped when
 * the cap leaves nothing to buy.
 */
module Execution {
  import opened Valuation
  import opened Drift
  import opened Sorting

  /** An order as executed: the pending order it came from and the quantity actually traded. */
  datatype Fill = Fill(order: Pending, quantity: int)

  /** The part of the portfolio that execution changes: the positions and the cash balance. */
  datatype Book = Book(holdings: seq<Holding>, cash: real)

  /** What executing a list of pending orders returns: the emitted orders and the book afterwards. */
  datatype Outcome = Outcome(fills: seq<Fill>, book: Book)

  /** Same positions with the same symbols and prices; only quantities may differ. */
  predicate SameListing(a: seq<Holding>, b: seq<Holding>) {
    |a| == |b| && forall k :: 0 <= k < |a| ==> a[k].symbol == b[k].symbol && a[k].price == b[k].price
  }

  predicate FillsFit(fs: seq<Fill>, n: nat) {
    forall i :: 0 <= i < |fs| ==> fs[i].order.index < n
  }

  predicate PendingFits(ps: seq<Pending>, n: nat) {
    forall i :: 0 <= i < |ps| ==> ps[i].index < n
  }

  predicate AllOf(ps: seq<Pending>, a: Action) {
    forall i :: 0 <= i < |ps| ==> ps[i].action == a
  }

  /** One order's effect: the position's quantity moves by the order's quantity and cash by price times it. */
  function Step(b: Book, f: Fill): (r: Book)
    requires f.order.index < |b.holdings|
    ensures SameListing(b.holdings, r.holdings)
  {
    var k := f.order.index;
    var h := b.holdings[k];
    match f.order.action
    case Sell => Book(b.holdings[k := h.(quantity := h.quantity - f.quantity)], b.cash + h.price * f.quantity as real)
    case Buy => Book(b.holdings[k := h.(quantity := h.quantity + f.quantity)], b.cash - h.price * f.quantity as real)
  }

  /** One order's effect, spelled out for a caller that has computed the new quantity and cash itself. */
  lemma StepIs(b: Book, f: Fill, quantity: int, cash: real)
    requires f.order.index < |b.holdings|
    requires f.order.action == Sell ==> quantity == b.holdings[f.order.index].quantity - f.quantity
    requires f.order.action == Sell ==> cash == b.cash + b.holdings[f.order.index].price * f.quantity as real
    requires f.order.action == Buy ==> quantity == b.holdings[f.order.index].quantity + f.quantity
    requires f.order.action == Buy ==> cash == b.cash - b.holdings[f.order.index].price * f.quantity as real
    ensures Step(b, f) == Book(b.holdings[f.order.index := b.holdings[f.order.index].(quantity := quantity)], cash)
  {
  }

  function ApplyFills(b: Book, fs: seq<Fill>): (r: Book)
    requires FillsFit(fs, |b.holdings|)
    ensures SameListing(b.holdings, r.holdings)
    decreases |fs|
  {
    if fs == [] then b else ApplyFills(Step(b, fs[0]), fs[1..])
  }

  lemma ApplyFillsOne(b: Book, f: Fill)
    requires f.order.index < |b.holdings|
    ensures FillsFit([f], |b.holdings|) && ApplyFills(b, [f]) == Step(b, f)
  {
    assert [f][1..] == [];
  }

  /** Applying one more order of a list: the step after the prefix. */
  lemma ApplyFillsSnoc(b: Book, fs: seq<Fill>, i: nat)
    requires FillsFit(fs, |b.holdings|) && i < |fs|
    ensures FillsFit(fs[..i], |b.holdings|) && fs[i].order.index < |ApplyFills(b, fs[..i]).holdings|
    ensures ApplyFills(b, fs[..i + 1]) == Step(ApplyFills(b, fs[..i]), fs[i])
  {
    assert fs[..i + 1] == fs[..i] + [fs[i]];
    ApplyFillsConcat(b, fs[..i], [fs[i]]);
    ApplyFillsOne(ApplyFills(b, fs[..i]), fs[i]);
  }

  /** Applying a list and then one more order. */
  lemma ApplyFillsAppend(b: Book, fs: seq<Fill>, f: Fill)
    requires FillsFit(fs, |b.holdings|) && f.order.index < |b.holdings|
    ensures FillsFit(fs + [f], |b.holdings|)
    ensures ApplyFills(b, fs + [f]) == Step(ApplyFills(b, fs), f)
  {
    assert forall i :: 0 <= i < |fs| ==> (fs + [f])[i] == fs[i];
    ApplyFillsConcat(b, fs, [f]);
    ApplyFillsOne(ApplyFills(b, fs), f);
  }

  lemma {:induction false} ApplyFillsConcat(b: Book, xs: seq<Fill>, ys: seq<Fill>)
    requires FillsFit(xs + ys, |b.holdings|)
    ensures FillsFit(xs, |b.holdings|) && FillsFit(ys, |b.holdings|)
    ensures ApplyFills(b, xs + ys) == ApplyFills(ApplyFills(b, xs), ys)
    decreases |xs|
  {
    assert forall i :: 0 <= i < |xs| ==> (xs + ys)[i] == xs[i];
    assert forall i :: 0 <= i < |ys| ==> (xs + ys)[|xs| + i] == ys[i];
    if xs == [] {
      assert [] + ys == ys;
    } else {
      assert (xs + ys)[1..] == xs[1..] + ys;
      ApplyFillsConcat(Step(b, xs[0]), xs[1..], ys);
    }
  }

  /** pendingOrders.filter(order => order.action === a): keeps the order of the list. */
  function OfAction(ps: seq<Pending>, a: Action): (r: seq<Pending>)
    ensures AllOf(r, a)
    ensures forall p :: p in r <==> p in ps && p.action == a
  {
    if ps == [] then []
    else if ps[0].action == a then [ps[0]] + OfAction(ps[1..], a)
    else OfAction(ps[1..], a)
  }

  /** Filtering keeps every order within the position list. */
  lemma OfActionFits(ps: seq<Pending>, a: Action, n: nat)
    requires PendingFits(ps, n)
    ensures PendingFits(OfAction(ps, a), n)
  {
    var r := OfAction(ps, a);
    forall i | 0 <= i < |r| ensures r[i].index < n {
      assert r[i] in ps;
    }
  }

  /** Filtering keeps increasing position order: SELLs execute in the order they were discovered. */
  lemma {:induction false} OfActionKeepsOrder(ps: seq<Pending>, a: Action)
    requires IndicesIncrease(ps)
    ensures IndicesIncrease(OfAction(ps, a))
  {
    if ps != [] {
      assert IndicesIncrease(ps[1..]);
      OfActionKeepsOrder(ps[1..], a);
      var r := OfAction(ps[1..], a);
      forall j | 0 <= j < |r| ensures ps[0].index < r[j].index {
        assert r[j] in ps[1..];
      }
    }
  }

  /** SELLs execute in full: each pending SELL becomes an order for exactly its quantity. */
  function SellFills(sells: seq<Pending>): (r: seq<Fill>)
  {
    seq(|sells|, i requires 0 <= i < |sells| => Fill(sells[i], sells[i].quantity))
  }

  function Min(a: int, b: int): int {
    if a <= b then a else b
  }

  /** Math.floor(cash / price): the whole shares the cash at hand pays for. */
  function Affordable(cash: real, price: real): int
    requires price > 0.0
  {
    (cash / price).Floor
  }

  /** Math.min(pending quantity, Math.floor(cash / price)): what a BUY can execute with the cash at hand. */
  function CappedQuantity(b: Book, p: Pending): int
    requires p.index < |b.holdings| && PricesPositive(b.holdings)
  {
    Min(p.quantity, Affordable(b.cash, b.holdings[p.index].price))
  }

  /**
   * The BUY loop: each BUY is capped at floor(cash / price) for the cash left at that moment, and is
   * emitted, and executed, only when the capped quantity is positive.
   */
  function BuyFills(b: Book, buys: seq<Pending>): (r: seq<Fill>)
    requires PendingFits(buys, |b.holdings|) && PricesPositive(b.holdings)
    ensures FillsFit(r, |b.holdings|)
    decreases |buys|
  {
    if buys == [] then []
    else
      var p := buys[0];
      var quantity := CappedQuantity(b, p);
      if quantity > 0 then
        var after := Step(b, Fill(p, quantity));
        [Fill(p, quantity)] + BuyFills(after, buys[1..])
      else
        BuyFills(b, buys[1..])
  }

  /** One turn of the BUY loop, at the j-th sorted BUY, for the book at that moment. */
  lemma BuyFillsUnroll(b: Book, buys: seq<Pending>, j: nat)
    requires PendingFits(buys, |b.holdings|) && PricesPositive(b.holdings) && j < |buys|
    ensures var p := buys[j];
      var quantity := CappedQuantity(b, p);
      && PendingFits(buys[j + 1..], |b.holdings|)
      && BuyFills(b, buys[j..]) ==
        if quantity > 0 then [Fill(p, quantity)] + BuyFills(Step(b, Fill(p, quantity)), buys[j + 1..])
        else BuyFills(b, buys[j + 1..])
  {
    assert buys[j..][0] == buys[j] && buys[j..][1..] == buys[j + 1..];
  }

  /** Orders applied at the current prices keep every price positive. */
  lemma ApplyFillsPriced(b: Book, fs: seq<Fill>)
    requires FillsFit(fs, |b.holdings|) && PricesPositive(b.holdings)
    ensures PricesPositive(ApplyFills(b, fs).holdings)
  {
    var r := ApplyFills(b, fs);
    assert forall k :: 0 <= k < |r.holdings| ==> r.holdings[k].price == b.holdings[k].price;
  }

  /**
   * One turn of the BUY loop at the j-th sorted BUY, from the book reached after the orders bought so
   * far: the order executes when its cap is positive, and the orders still to come are unchanged.
   */
  lemma BuyTurn(start: Book, bought: seq<Fill>, buys: seq<Pending>, j: nat)
    requires PendingFits(buys, |start.holdings|) && PricesPositive(start.holdings) && j < |buys|
    requires FillsFit(bought, |start.holdings|)
    ensures PricesPositive(ApplyFills(start, bought).holdings)
    ensures var now := ApplyFills(start, bought);
      var p := buys[j];
      var q := CappedQuantity(now, p);
      var next := if q > 0 then bought + [Fill(p, q)] else bought;
      && FillsFit(next, |start.holdings|)
      && ApplyFills(start, next) == (if q > 0 then Step(now, Fill(p, q)) else now)
      && PricesPositive(ApplyFills(start, next).holdings)
      && PendingFits(buys[j + 1..], |start.holdings|)
      && bought + BuyFills(now, buys[j..]) == next + BuyFills(ApplyFills(start, next), buys[j + 1..])
  {
    ApplyFillsPriced(start, bought);
    var now := ApplyFills(start, bought);
    var p := buys[j];
    var q := CappedQuantity(now, p);
    BuyFillsUnroll(now, buys, j);
    if q > 0 {
      var f := Fill(p, q);
      var rest := BuyFills(Step(now, f), buys[j + 1..]);
      assert bought + ([f] + rest) == (bought + [f]) + rest;
      BoughtOne(start, bought, f);
    }
  }

  lemma BoughtOne(start: Book, bought: seq<Fill>, f: Fill)
    requires FillsFit(bought, |start.holdings|) && f.order.index < |start.holdings| && PricesPositive(start.holdings)
    ensures FillsFit(bought + [f], |start.holdings|)
    ensures ApplyFills(start, bought + [f]) == Step(ApplyFills(start, bought), f)
    ensures PricesPositive(ApplyFills(start, bought + [f]).holdings)
  {
    ApplyFillsAppend(start, bought, f);
    ApplyFillsPriced(start, bought + [f]);
  }

  lemma SortedBuysFit(pending: seq<Pending>, n: nat)
    requires PendingFits(pending, n)
    ensures PendingFits(SortByWeight(OfAction(pending, Buy)), n)
    ensures AllOf(SortByWeight(OfAction(pending, Buy)), Buy)
    ensures forall p :: p in SortByWeight(OfAction(pending, Buy)) ==> p in pending
  {
    var buys := OfAction(pending, Buy);
    SortPermutes(buys);
    var sorted := SortByWeight(buys);
    forall i | 0 <= i < |sorted| ensures sorted[i].index < n && sorted[i].action == Buy && sorted[i] in pending {
      assert sorted[i] in multiset(buys);
      assert sorted[i] in pending;
    }
  }

  /** executeOrders: all SELLs first, then the capped BUYs in descending weight order. */
  function Execute(b: Book, pending: seq<Pending>): Outcome
    requires PendingFits(pending, |b.holdings|) && PricesPositive(b.holdings)
  {
    var sells := SellFills(OfAction(pending, Sell));
    assert FillsFit(sells, |b.holdings|) by {
      forall i | 0 <= i < |sells| ensures sells[i].order.index < |b.holdings| {
        assert sells[i].order in pending;
      }
    }
    var afterSells := ApplyFills(b, sells);
    SortedBuysFit(pending, |b.holdings|);
    var bought := BuyFills(afterSells, SortByWeight(OfAction(pending, Buy)));
    Outcome(sells + bought, ApplyFills(afterSells, bought))
  }

  /** executeOrders' result is its SELL orders followed by its BUY orders. */
  lemma ExecuteSplit(b: Book, pending: seq<Pending>)
    requires PendingFits(pending, |b.holdings|) && PricesPositive(b.holdings)
    ensures var sellFills := SellFills(OfAction(pending, Sell));
      && FillsFit(sellFills, |b.holdings|)
      && PricesPositive(ApplyFills(b, sellFills).holdings)
      && PendingFits(SortByWeight(OfAction(pending, Buy)), |b.holdings|)
      && var bought := BuyFills(ApplyFills(b, sellFills), SortByWeight(OfAction(pending, Buy)));
      && Execute(b, pending).fills == sellFills + bought
      && Execute(b, pending).book == ApplyFills(b, sellFills + bought)
  {
    var sells := OfAction(pending, Sell);
    var sellFills := SellFills(sells);
    assert FillsFit(sellFills, |b.holdings|) by {
      forall i | 0 <= i < |sells| ensures sellFills[i].order.index < |b.holdings| {
        assert sellFills[i].order in pending;
      }
    }
    SortedBuysFit(pending, |b.holdings|);
    var bought := BuyFills(ApplyFills(b, sellFills), SortByWeight(OfAction(pending, Buy)));
    ApplyFillsConcat(b, sellFills, bought);
  }

  /**
   * executeOrders' SELLs: one for each pending SELL, in full and in order, first in the result; the
   * book afterwards is the original book with the result's orders applied in order.
   */
  lemma ExecuteSells(b: Book, pending: seq<Pending>)
    requires PendingFits(pending, |b.holdings|) && PricesPositive(b.holdings)
    ensures var out := Execute(b, pending);
      var sells := OfAction(pending, Sell);
      && |sells| <= |out.fills|
      && FillsFit(out.fills, |b.holdings|)
      && out.book == ApplyFills(b, out.fills)
      && forall i :: 0 <= i < |sells| ==> out.fills[i] == Fill(sells[i], sells[i].quantity)
  {
    ExecuteSplit(b, pending);
  }

  /** executeOrders' BUYs: after the SELLs, the sorted pending BUYs with those capped to zero left out. */
  lemma ExecuteBuys(b: Book, pending: seq<Pending>)
    requires PendingFits(pending, |b.holdings|) && PricesPositive(b.holdings)
    ensures var out := Execute(b, pending);
      var n := |OfAction(pending, Sell)|;
      n <= |out.fills| && Subseq(OrdersOf(out.fills[n..]), SortByWeight(OfAction(pending, Buy)))
  {
    ExecuteSplit(b, pending);
    var fills := Execute(b, pending).fills;
    var sellFills := SellFills(OfAction(pending, Sell));
    var buys := SortByWeight(OfAction(pending, Buy));
    var afterSells := ApplyFills(b, sellFills);
    var bought := BuyFills(afterSells, buys);
    assert fills == sellFills + bought;
    assert fills[|sellFills|..] == bought;
    BuyFillsSubseq(afterSells, buys);
  }

  /** Every order of executeOrders' result after its SELLs is a BUY of a positive quantity. */
  lemma ExecuteBuysPositive(b: Book, pending: seq<Pending>)
    requires PendingFits(pending, |b.holdings|) && PricesPositive(b.holdings)
    ensures var out := Execute(b, pending);
      forall i :: |OfAction(pending, Sell)| <= i < |out.fills| ==> out.fills[i].order.action == Buy && out.fills[i].quantity > 0
  {
    ExecuteSplit(b, pending);
    var fills := Execute(b, pending).fills;
    var sells := OfAction(pending, Sell);
    var afterSells := ApplyFills(b, SellFills(sells));
    var bought := BuyFills(afterSells, SortByWeight(OfAction(pending, Buy)));
    SortedBuysFit(pending, |b.holdings|);
    BuyFillsAreBuys(afterSells, SortByWeight(OfAction(pending, Buy)));
    PositiveBuysAfter(SellFills(sells), bought);
  }

  /** Appending positive BUYs after a prefix: every fill past the prefix is a positive BUY. */
  lemma PositiveBuysAfter(front: seq<Fill>, bought: seq<Fill>)
    requires forall i :: 0 <= i < |bought| ==> bought[i].order.action == Buy && bought[i].quantity > 0
    ensures forall i :: |front| <= i < |front + bought| ==> (front + bought)[i].order.action == Buy && (front + bought)[i].quantity > 0
  {
    forall i | |front| <= i < |front + bought| ensures (front + bought)[i].order.action == Buy && (front + bought)[i].quantity > 0 {
      assert (front + bought)[i] == bought[i - |front|];
    }
  }

  /** Every BUY of executeOrders' result is under the buy cap. */
  lemma ExecuteBuyCap(b: Book, pending: seq<Pending>)
    requires PendingFits(pending, |b.holdings|) && PricesPositive(b.holdings)
    ensures FillsFit(Execute(b, pending).fills, |b.holdings|) && BuysCapped(b, Execute(b, pending).fills)
  {
    ExecuteSplit(b, pending);
    var sells := OfAction(pending, Sell);
    var sellFills := SellFills(sells);
    var buys := SortByWeight(OfAction(pending, Buy));
    var afterSells := ApplyFills(b, sellFills);
    SortedBuysFit(pending, |b.holdings|);
    OfActionFits(pending, Sell, |b.holdings|);
    SellFillsCapped(b, sells);
    BuyFillsCapped(afterSells, buys);
    BuysCappedConcat(b, sellFills, BuyFills(afterSells, buys));
  }

  /** With nothing pending, executeOrders emits nothing and changes nothing. */
  lemma ExecuteNothing(b: Book)
    requires PricesPositive(b.holdings)
    ensures Execute(b, []) == Outcome([], b)
  {
    var none: seq<Fill> := [];
    assert none + none == none;
    assert OfAction([], Sell) == [] && SortByWeight(OfAction([], Buy)) == [];
  }

  /** Cash moved by the orders: + price * quantity for each SELL, - price * quantity for each BUY. */
  function CashFlow(hs: seq<Holding>, fs: seq<Fill>): real
    requires FillsFit(fs, |hs|)
  {
    if fs == [] then 0.0
    else
      var price := hs[fs[0].order.index].price;
      var amount := price * fs[0].quantity as real;
      (if fs[0].order.action == Sell then amount else -amount) + CashFlow(hs, fs[1..])
  }

  /** Net quantity the orders move on position j: + for BUYs, - for SELLs. */
  function NetQuantity(fs: seq<Fill>, j: nat): int {
    if fs == [] then 0
    else
      var moved := if fs[0].order.index != j then 0
        else if fs[0].order.action == Buy then fs[0].quantity else -fs[0].quantity;
      moved + NetQuantity(fs[1..], j)
  }

  lemma {:induction false} CashFlowListing(a: seq<Holding>, b: seq<Holding>, fs: seq<Fill>)
    requires SameListing(a, b) && FillsFit(fs, |a|)
    ensures CashFlow(a, fs) == CashFlow(b, fs)
  {
    if fs != [] {
      CashFlowListing(a, b, fs[1..]);
    }
  }

  /**
   * Conservation: applying orders leaves symbols and prices alone, changes cash by exactly the cash
   * flow of the orders, and changes each position's quantity by exactly its orders' net quantity.
   */
  lemma ApplyFillsEffect(b: Book, fs: seq<Fill>)
    requires FillsFit(fs, |b.holdings|)
    ensures var r := ApplyFills(b, fs);
      && SameListing(b.holdings, r.holdings)
      && r.cash == b.cash + CashFlow(b.holdings, fs)
      && forall j :: 0 <= j < |b.holdings| ==> r.holdings[j].quantity == b.holdings[j].quantity + NetQuantity(fs, j)
  {
    ApplyFillsCash(b, fs);
    forall j | 0 <= j < |b.holdings|
      ensures ApplyFills(b, fs).holdings[j].quantity == b.holdings[j].quantity + NetQuantity(fs, j)
    {
      ApplyFillsQuantity(b, fs, j);
    }
  }

  lemma {:induction false} ApplyFillsCash(b: Book, fs: seq<Fill>)
    requires FillsFit(fs, |b.holdings|)
    ensures ApplyFills(b, fs).cash == b.cash + CashFlow(b.holdings, fs)
    decreases |fs|
  {
    if fs != [] {
      var s := Step(b, fs[0]);
      assert FillsFit(fs[1..], |s.holdings|);
      ApplyFillsCash(s, fs[1..]);
      CashFlowListing(b.holdings, s.holdings, fs[1..]);
      assert ApplyFills(b, fs) == ApplyFills(s, fs[1..]);
    }
  }

  lemma {:induction false} ApplyFillsQuantity(b: Book, fs: seq<Fill>, j: nat)
    requires FillsFit(fs, |b.holdings|) && j < |b.holdings|
    ensures ApplyFills(b, fs).holdings[j].quantity == b.holdings[j].quantity + NetQuantity(fs, j)
    decreases |fs|
  {
    if fs != [] {
      var s := Step(b, fs[0]);
      assert FillsFit(fs[1..], |s.holdings|);
      ApplyFillsQuantity(s, fs[1..], j);
      assert ApplyFills(b, fs) == ApplyFills(s, fs[1..]);
    }
  }

  /** A position that no order names keeps its quantity. */
  lemma {:induction false} NoOrderNoChange(fs: seq<Fill>, j: nat)
    requires forall i :: 0 <= i < |fs| ==> fs[i].order.index != j
    ensures NetQuantity(fs, j) == 0
  {
    if fs != [] {
      NoOrderNoChange(fs[1..], j);
    }
  }

  lemma StocksValueUpdate(hs: seq<Holding>, k: nat, h: Holding)
    requires k < |hs|
    ensures StocksValue(hs[k := h]) == StocksValue(hs) - hs[k].Value() + h.Value()
  {
    if k > 0 {
      assert hs[k := h][1..] == hs[1..][k - 1 := h];
      StocksValueUpdate(hs[1..], k - 1, h);
    } else {
      assert hs[k := h][1..] == hs[1..];
    }
  }

  /** Trading at the current price moves value between a position and cash: their sum is kept. */
  lemma {:induction false} ApplyFillsKeepsTotal(b: Book, fs: seq<Fill>)
    requires FillsFit(fs, |b.holdings|)
    ensures StocksValue(ApplyFills(b, fs).holdings) + ApplyFills(b, fs).cash == StocksValue(b.holdings) + b.cash
    decreases |fs|
  {
    if fs != [] {
      StepKeepsTotal(b, fs[0]);
      ApplyFillsKeepsTotal(Step(b, fs[0]), fs[1..]);
    }
  }

  lemma StepKeepsTotal(b: Book, f: Fill)
    requires f.order.index < |b.holdings|
    ensures StocksValue(Step(b, f).holdings) + Step(b, f).cash == StocksValue(b.holdings) + b.cash
  {
    var k := f.order.index;
    var h := b.holdings[k];
    var amount := h.price * f.quantity as real;
    var moved := if f.order.action == Sell then -f.quantity else f.quantity;
    var h' := h.(quantity := h.quantity + moved);
    assert h.price * (h.quantity as real + moved as real) == h.price * h.quantity as real + h.price * moved as real;
    assert Step(b, f).holdings == b.holdings[k := h'];
    assert Step(b, f).cash == b.cash - h.price * moved as real;
    StocksValueUpdate(b.holdings, k, h');
  }

  /** A capped quantity is affordable: q <= floor(cash / price) means q * price <= cash. */
  lemma CapAffordable(cash: real, price: real, q: int)
    requires price > 0.0 && q <= Affordable(cash, price)
    ensures cash - price * q as real >= 0.0
  {
    var x := cash / price;
    assert x * price == cash;
    assert q as real <= x;
    assert (x - q as real) * price >= 0.0;
  }

  /**
   * The buy cap for a fill f executed from the book `now`: a BUY with a positive quantity, no more
   * than its pending size, that leaves cash non-negative. For a positive price the last is the same
   * as a quantity of at most floor(cash / price): CapAffordable gives one direction, CapHoldsGivesFloor
   * the other.
   */
  predicate CapHolds(now: Book, f: Fill)
    requires f.order.index < |now.holdings|
  {
    && f.order.action == Buy
    && 0 < f.quantity <= f.order.quantity
    && Step(now, f).cash >= 0.0
  }

  /** The converse of CapAffordable: a fill under the cap buys at most floor(cash / price) shares. */
  lemma CapHoldsGivesFloor(now: Book, f: Fill)
    requires f.order.index < |now.holdings| && PricesPositive(now.holdings) && CapHolds(now, f)
    ensures f.quantity <= Affordable(now.cash, now.holdings[f.order.index].price)
  {
    var price := now.holdings[f.order.index].price;
    var x := now.cash / price;
    assert x * price == now.cash;
    assert price * f.quantity as real <= now.cash;
    assert f.quantity as real <= x;
  }

  /**
   * Each BUY of fs, run in turn from the book now, is under the buy cap for the book at the moment it
   * executes; SELLs are not capped.
   */
  predicate BuysCapped(now: Book, fs: seq<Fill>)
    requires FillsFit(fs, |now.holdings|)
    decreases |fs|
  {
    fs == [] || ((fs[0].order.action == Buy ==> CapHolds(now, fs[0])) && BuysCapped(Step(now, fs[0]), fs[1..]))
  }

  /** Read at one index: the k-th order, if a BUY, is under the cap for the book its predecessors leave. */
  lemma {:induction false} BuysCappedAt(now: Book, fs: seq<Fill>, k: nat)
    requires FillsFit(fs, |now.holdings|) && BuysCapped(now, fs) && k < |fs| && fs[k].order.action == Buy
    ensures FillsFit(fs[..k], |now.holdings|) && CapHolds(ApplyFills(now, fs[..k]), fs[k])
    decreases k
  {
    if k == 0 {
      assert fs[..0] == [];
    } else {
      var next := Step(now, fs[0]);
      assert FillsFit(fs[1..], |next.holdings|);
      BuysCappedAt(next, fs[1..], k - 1);
      assert fs[..k][0] == fs[0] && fs[..k][1..] == fs[1..][..k - 1];
      assert fs[1..][k - 1] == fs[k];
    }
  }

  /** SELLs leave nothing to cap. */
  lemma {:induction false} SellFillsCapped(b: Book, sells: seq<Pending>)
    requires PendingFits(sells, |b.holdings|) && AllOf(sells, Sell)
    ensures FillsFit(SellFills(sells), |b.holdings|) && BuysCapped(b, SellFills(sells))
    decreases |sells|
  {
    if sells != [] {
      var fs := SellFills(sells);
      var next := Step(b, fs[0]);
      assert SellFills(sells[1..]) == fs[1..];
      assert PendingFits(sells[1..], |next.holdings|) && AllOf(sells[1..], Sell);
      SellFillsCapped(next, sells[1..]);
    }
  }

  /** The cap over a concatenation: over the first part, then over the second from the book the first leaves. */
  lemma {:induction false} BuysCappedConcat(now: Book, xs: seq<Fill>, ys: seq<Fill>)
    requires FillsFit(xs, |now.holdings|) && FillsFit(ys, |now.holdings|)
    requires BuysCapped(now, xs) && BuysCapped(ApplyFills(now, xs), ys)
    ensures FillsFit(xs + ys, |now.holdings|) && BuysCapped(now, xs + ys)
    decreases |xs|
  {
    if xs == [] {
      assert xs + ys == ys;
    } else {
      var next := Step(now, xs[0]);
      assert FillsFit(xs[1..], |next.holdings|);
      BuysCappedConcat(next, xs[1..], ys);
      assert (xs + ys)[0] == xs[0] && (xs + ys)[1..] == xs[1..] + ys;
    }
  }

  /** The BUY loop emits only BUYs, each of a positive quantity. */
  lemma {:induction false} BuyFillsAreBuys(b: Book, buys: seq<Pending>)
    requires PendingFits(buys, |b.holdings|) && PricesPositive(b.holdings) && AllOf(buys, Buy)
    ensures forall i :: 0 <= i < |BuyFills(b, buys)| ==> BuyFills(b, buys)[i].order.action == Buy && BuyFills(b, buys)[i].quantity > 0
    decreases |buys|
  {
    if buys != [] {
      var p := buys[0];
      var quantity := CappedQuantity(b, p);
      assert PendingFits(buys[1..], |b.holdings|) && AllOf(buys[1..], Buy);
      if quantity > 0 {
        var after := Step(b, Fill(p, quantity));
        ApplyFillsPriced(b, [Fill(p, quantity)]);
        ApplyFillsOne(b, Fill(p, quantity));
        BuyFillsAreBuys(after, buys[1..]);
        var rest := BuyFills(after, buys[1..]);
        var fs := BuyFills(b, buys);
        assert fs == [Fill(p, quantity)] + rest;
        assert p.action == Buy;
        forall i | 0 <= i < |fs| ensures fs[i].order.action == Buy && fs[i].quantity > 0 {
          if i > 0 {
            assert fs[i] == rest[i - 1];
          }
        }
      } else {
        BuyFillsAreBuys(b, buys[1..]);
      }
    }
  }

  /** Every emitted BUY respects the buy cap. */
  lemma {:induction false} BuyFillsCapped(b: Book, buys: seq<Pending>)
    requires PendingFits(buys, |b.holdings|) && PricesPositive(b.holdings) && AllOf(buys, Buy)
    ensures BuysCapped(b, BuyFills(b, buys))
    decreases |buys|
  {
    if buys != [] {
      var p := buys[0];
      var quantity := CappedQuantity(b, p);
      assert PendingFits(buys[1..], |b.holdings|) && AllOf(buys[1..], Buy);
      if quantity > 0 {
        var f := Fill(p, quantity);
        var after := Step(b, f);
        ApplyFillsPriced(b, [f]);
        ApplyFillsOne(b, f);
        BuyFillsCapped(after, buys[1..]);
        var rest := BuyFills(after, buys[1..]);
        assert BuyFills(b, buys) == [f] + rest;
        CapAffordable(b.cash, b.holdings[p.index].price, quantity);
        assert CapHolds(b, f);
        assert ([f] + rest)[1..] == rest;
      } else {
        BuyFillsCapped(b, buys[1..]);
      }
    }
  }

  /** The orders of a list of fills, in the same order. */
  function OrdersOf(fs: seq<Fill>): (r: seq<Pending>)
    ensures |r| == |fs| && forall i :: 0 <= i < |fs| ==> r[i] == fs[i].order
  {
    if fs == [] then [] else [fs[0].order] + OrdersOf(fs[1..])
  }

  /** xs is ys with some elements left out. */
  predicate Subseq(xs: seq<Pending>, ys: seq<Pending>)
    decreases |xs| + |ys|
  {
    xs == [] || (ys != [] && ((xs[0] == ys[0] && Subseq(xs[1..], ys[1..])) || Subseq(xs, ys[1..])))
  }

  /** The emitted BUYs are the sorted pending BUYs with some left out (those whose cap was zero), in the same order. */
  lemma {:induction false} BuyFillsSubseq(b: Book, buys: seq<Pending>)
    requires PendingFits(buys, |b.holdings|) && PricesPositive(b.holdings)
    ensures Subseq(OrdersOf(BuyFills(b, buys)), buys)
    decreases |buys|
  {
    if buys != [] {
      var p := buys[0];
      var price := b.holdings[p.index].price;
      var quantity := Min(p.quantity, Affordable(b.cash, price));
      assert PendingFits(buys[1..], |b.holdings|);
      if quantity > 0 {
        var after := Step(b, Fill(p, quantity));
        BuyFillsSubseq(after, buys[1..]);
        var fs := BuyFills(b, buys);
        assert fs == [Fill(p, quantity)] + BuyFills(after, buys[1..]);
        assert OrdersOf(fs)[1..] == OrdersOf(BuyFills(after, buys[1..]));
      } else {
        BuyFillsSubseq(b, buys[1..]);
      }
    }
  }

  lemma {:induction false} SubseqMembers(xs: seq<Pending>, ys: seq<Pending>)
    requires Subseq(xs, ys)
    ensures forall x :: x in xs ==> x in ys
    decreases |xs| + |ys|
  {
    if xs != [] {
      if xs[0] == ys[0] && Subseq(xs[1..], ys[1..]) {
        SubseqMembers(xs[1..], ys[1..]);
        assert xs == [xs[0]] + xs[1..];
      } else {
        SubseqMembers(xs, ys[1..]);
      }
    }
  }

  /** Leaving elements out of a list ordered by weight keeps it ordered by weight. */
  lemma {:induction false} SubseqByWeight(xs: seq<Pending>, ys: seq<Pending>)
    requires Subseq(xs, ys) && ByWeight(ys)
    ensures ByWeight(xs)
    decreases |xs| + |ys|
  {
    if xs != [] {
      assert ByWeight(ys[1..]);
      if xs[0] == ys[0] && Subseq(xs[1..], ys[1..]) {
        SubseqByWeight(xs[1..], ys[1..]);
        SubseqMembers(xs[1..], ys[1..]);
        forall i, j | 0 <= i < j < |xs| ensures xs[i].weight >= xs[j].weight {
          if i == 0 {
            assert xs[j] == xs[1..][j - 1];
            assert xs[j] in ys[1..];
          } else {
            assert xs[i] == xs[1..][i - 1] && xs[j] == xs[1..][j - 1];
          }
        }
      } else {
        SubseqByWeight(xs, ys[1..]);
      }
    }
  }

  /** Leaving elements out keeps equal weights in increasing position order. */
  lemma {:induction false} SubseqTies(xs: seq<Pending>, ys: seq<Pending>)
    requires Subseq(xs, ys) && TiesIncrease(ys)
    ensures TiesIncrease(xs)
    decreases |xs| + |ys|
  {
    if xs != [] {
      assert TiesIncrease(ys[1..]);
      if xs[0] == ys[0] && Subseq(xs[1..], ys[1..]) {
        SubseqTies(xs[1..], ys[1..]);
        SubseqMembers(xs[1..], ys[1..]);
        forall i, j | 0 <= i < j < |xs| && xs[i].weight == xs[j].weight ensures xs[i].index < xs[j].index {
          if i == 0 {
            assert xs[j] == xs[1..][j - 1];
            assert xs[j] in ys[1..];
          } else {
            assert xs[i] == xs[1..][i - 1] && xs[j] == xs[1..][j - 1];
          }
        }
      } else {
        SubseqTies(xs, ys[1..]);
      }
    }
  }
}
