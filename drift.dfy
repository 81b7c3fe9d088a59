/**
 * Drift detection and order sizing, the first half of rebalance(): for each entry of the current
 * allocation map, look up the target, find the position, and emit a pending SELL or BUY when the
 * allocation is beyond the threshold band around the target.
 */
module Drift {
  import opened Wrappers
  import opened Valuation

  /** The portfolio's fixed allocation threshold (_allocationThreshold). */
  const AllocationThreshold: real := 0.03

  datatype Action = Buy | Sell

  /**
   * A pending order: the position it trades (by its index in the position list), the quantity
   * sized for it, its action and |allocation - target|, its priority weight.
   */
  datatype Pending = Pending(index: nat, quantity: int, action: Action, weight: real)

  /** The two errors rebalance() throws. */
  datatype RebalanceError = TargetNotFound(symbol: string) | PositionNotFound(symbol: string)

  function Abs(x: real): real {
    if x < 0.0 then -x else x
  }

  /** `if (!targetAllocation)`: a target counts only when it is present and non-zero. */
  predicate HasTarget(targets: Entries, symbol: string) {
    Get(targets, symbol).Some? && Get(targets, symbol).value != 0.0
  }

  /**
   * The order one position's drift calls for: a SELL of floor(moneyDifference / price) above the band,
   * a BUY of floor(|moneyDifference| / price) below it, nothing inside it. The band is closed: a drift
   * of exactly the threshold emits nothing.
   */
  function OrderFor(index: nat, price: real, allocation: real, target: real, base: real): (r: seq<Pending>)
    requires price > 0.0
    ensures |r| <= 1
    ensures r == [] <==> -AllocationThreshold <= allocation - target <= AllocationThreshold
    ensures r != [] ==> r[0].index == index && r[0].weight == Abs(allocation - target) > AllocationThreshold
    ensures r != [] ==> (r[0].action == Sell <==> allocation > target)
  {
    var allocationDifference := allocation - target;
    var moneyDifference := allocationDifference * base;
    if allocationDifference > AllocationThreshold then
      [Pending(index, (moneyDifference / price).Floor, Sell, Abs(allocationDifference))]
    else if allocationDifference < -AllocationThreshold then
      [Pending(index, (Abs(moneyDifference) / price).Floor, Buy, Abs(allocationDifference))]
    else
      []
  }

  /** q is the whole number of shares money pays for at price: floor(money / price). */
  predicate WholeShares(q: int, money: real, price: real)
    requires price > 0.0
  {
    q as real <= money / price < q as real + 1.0
  }

  /** The money an order is sized from: moneyDifference for a SELL, its magnitude for a BUY. */
  function OrderMoney(action: Action, allocation: real, target: real, base: real): real {
    var moneyDifference := (allocation - target) * base;
    if action == Sell then moneyDifference else Abs(moneyDifference)
  }

  /**
   * The size of the order (lines 71, 79): the whole number of shares that moneyDifference = drift * base
   * (a SELL), or its magnitude (a BUY), pays for at the stock's price. With a non-negative base it is
   * never negative.
   */
  lemma OrderSize(index: nat, price: real, allocation: real, target: real, base: real)
    requires price > 0.0
    ensures var r := OrderFor(index, price, allocation, target, base);
      r != [] ==> WholeShares(r[0].quantity, OrderMoney(r[0].action, allocation, target, base), price)
    ensures var r := OrderFor(index, price, allocation, target, base);
      r != [] && base >= 0.0 ==> r[0].quantity >= 0
  {
    var diff := allocation - target;
    var money := diff * base;
    if diff > AllocationThreshold {
      if base >= 0.0 {
        assert diff * base >= 0.0;
        assert money / price >= 0.0;
      }
    } else if diff < -AllocationThreshold {
      assert Abs(money) / price >= 0.0;
    }
  }

  /** One pass of the loop at lines 56-87, for one (symbol, allocation) entry. */
  function PendingFor(hs: seq<Holding>, targets: Entries, base: real, entry: (string, real)): Result<seq<Pending>, RebalanceError>
    requires PricesPositive(hs)
  {
    var (symbol, allocation) := entry;
    var target := Get(targets, symbol);
    if target.None? || target.value == 0.0 then Err(TargetNotFound(symbol))
    else match FindBySymbol(hs, symbol)
      case None => Err(PositionNotFound(symbol))
      case Some(k) => Ok(OrderFor(k, hs[k].price, allocation, target.value, base))
  }

  function Prepend(front: seq<Pending>, r: Result<seq<Pending>, RebalanceError>): Result<seq<Pending>, RebalanceError> {
    match r
    case Ok(rest) => Ok(front + rest)
    case Err(e) => Err(e)
  }

  /** The pending orders for the allocation entries in order; the first entry that throws decides the error. */
  function PendingOrders(hs: seq<Holding>, targets: Entries, base: real, entries: Entries): (r: Result<seq<Pending>, RebalanceError>)
    requires PricesPositive(hs)
    ensures r.Ok? ==> forall i :: 0 <= i < |r.value| ==> r.value[i].index < |hs|
  {
    if entries == [] then Ok([])
    else match PendingFor(hs, targets, base, entries[0])
      case Err(e) => Err(e)
      case Ok(o) => Prepend(o, PendingOrders(hs, targets, base, entries[1..]))
  }

  /** The loop's i-th turn: the entry's own orders, then those of the entries after it. */
  lemma PendingOrdersUnroll(hs: seq<Holding>, targets: Entries, base: real, entries: Entries, i: nat)
    requires PricesPositive(hs) && i < |entries|
    ensures PendingOrders(hs, targets, base, entries[i..]) ==
      match PendingFor(hs, targets, base, entries[i])
      case Err(e) => Err(e)
      case Ok(o) => Prepend(o, PendingOrders(hs, targets, base, entries[i + 1..]))
  {
    assert entries[i..][0] == entries[i] && entries[i..][1..] == entries[i + 1..];
  }

  /** Every entry names a symbol some position holds: the lookup at lines 61-64 cannot fail. */
  predicate SymbolsHeld(hs: seq<Holding>, entries: Entries) {
    forall i :: 0 <= i < |entries| ==> FindBySymbol(hs, entries[i].0).Some?
  }

  /**
   * When every entry is a held symbol, rebalance's loop fails exactly when some entry has no
   * (or a zero) target, it fails with TargetNotFound for such a symbol, and never with PositionNotFound.
   */
  lemma {:induction false} PendingOrdersFailIff(hs: seq<Holding>, targets: Entries, base: real, entries: Entries)
    requires PricesPositive(hs) && SymbolsHeld(hs, entries)
    ensures PendingOrders(hs, targets, base, entries).Err? <==>
      exists i :: 0 <= i < |entries| && !HasTarget(targets, entries[i].0)
    ensures PendingOrders(hs, targets, base, entries).Err? ==>
      var e := PendingOrders(hs, targets, base, entries).error;
      e.TargetNotFound? && !HasTarget(targets, e.symbol) && exists i :: 0 <= i < |entries| && entries[i].0 == e.symbol
  {
    if entries != [] {
      assert SymbolsHeld(hs, entries[1..]) by {
        forall i | 0 <= i < |entries[1..]| ensures FindBySymbol(hs, entries[1..][i].0).Some? {
          assert entries[1..][i] == entries[i + 1];
        }
      }
      PendingOrdersFailIff(hs, targets, base, entries[1..]);
      assert FindBySymbol(hs, entries[0].0).Some?;
      if !HasTarget(targets, entries[0].0) {
      } else {
        if exists i :: 0 <= i < |entries| && !HasTarget(targets, entries[i].0) {
          var i :| 0 <= i < |entries| && !HasTarget(targets, entries[i].0);
          assert entries[1..][i - 1] == entries[i];
        }
        if PendingOrders(hs, targets, base, entries[1..]).Err? {
          var e := PendingOrders(hs, targets, base, entries[1..]).error;
          var i :| 0 <= i < |entries[1..]| && entries[1..][i].0 == e.symbol;
          assert entries[i + 1].0 == e.symbol;
        }
      }
    }
  }

  /** The entry has a target and its allocation lies within the threshold band around it. */
  predicate InBand(targets: Entries, entry: (string, real)) {
    && HasTarget(targets, entry.0)
    && -AllocationThreshold <= entry.1 - Get(targets, entry.0).value <= AllocationThreshold
  }

  /** Within the band everywhere, the loop emits no pending order at all. */
  lemma {:induction false} PendingOrdersWithinBand(hs: seq<Holding>, targets: Entries, base: real, entries: Entries)
    requires PricesPositive(hs) && SymbolsHeld(hs, entries)
    requires forall i :: 0 <= i < |entries| ==> InBand(targets, entries[i])
    ensures PendingOrders(hs, targets, base, entries) == Ok([])
  {
    if entries != [] {
      var rest := entries[1..];
      assert forall i :: 0 <= i < |rest| ==> rest[i] == entries[i + 1];
      assert SymbolsHeld(hs, rest);
      PendingOrdersWithinBand(hs, targets, base, rest);
      assert InBand(targets, entries[0]);
      var k := FindBySymbol(hs, entries[0].0).value;
      var none := OrderFor(k, hs[k].price, entries[0].1, Get(targets, entries[0].0).value, base);
      assert none == [];
      assert PendingFor(hs, targets, base, entries[0]) == Ok([]);
      var empty: seq<Pending> := [];
      assert empty + empty == empty;
    }
  }

  /**
   * With price, stocks value and target positive, a SELL never asks for more than is held:
   * moneyDifference = value - target * stocksValue is at most the value, so the floor of
   * moneyDifference / price is at most the quantity. It is never negative either.
   */
  lemma SellWithinHolding(index: nat, h: Holding, target: real, base: real)
    requires h.price > 0.0 && base > 0.0 && target > 0.0
    ensures var r := OrderFor(index, h.price, h.Value() / base, target, base);
      r != [] && r[0].action == Sell ==> 0 <= r[0].quantity <= h.quantity
  {
    var allocation := h.Value() / base;
    var diff := allocation - target;
    if diff > AllocationThreshold {
      var money := diff * base;
      assert money == h.Value() - target * base;
      assert target * base > 0.0;
      var x := money / h.price;
      assert x * h.price == money;
      assert money < h.Value();
      assert h.Value() == (h.quantity as real) * h.price;
      assert x < h.quantity as real by {
        assert (h.quantity as real - x) * h.price > 0.0;
      }
      assert diff * base > 0.0;
      assert x > 0.0;
    }
  }

  /** Each entry's allocation is the value of the position the lookup finds, over the base. */
  predicate AllocationsMatch(hs: seq<Holding>, base: real, entries: Entries)
    requires base != 0.0
  {
    forall i :: 0 <= i < |entries| ==> match FindBySymbol(hs, entries[i].0)
      case Some(k) => entries[i].1 == hs[k].Value() / base
      case None => true
  }

  predicate TargetsNonNegative(targets: Entries) {
    forall i :: 0 <= i < |targets| ==> targets[i].1 >= 0.0
  }

  /** Lifted to the whole loop: every pending SELL lies between zero and the quantity held. */
  lemma {:induction false} PendingSellsWithinHolding(hs: seq<Holding>, targets: Entries, base: real, entries: Entries)
    requires PricesPositive(hs) && base > 0.0 && AllocationsMatch(hs, base, entries) && TargetsNonNegative(targets)
    ensures var r := PendingOrders(hs, targets, base, entries);
      r.Ok? ==> forall i :: 0 <= i < |r.value| && r.value[i].action == Sell ==>
        0 <= r.value[i].quantity <= hs[r.value[i].index].quantity
  {
    if entries != [] {
      assert AllocationsMatch(hs, base, entries[1..]) by {
        forall i | 0 <= i < |entries[1..]| ensures entries[1..][i] == entries[i + 1] { }
      }
      PendingSellsWithinHolding(hs, targets, base, entries[1..]);
      var symbol := entries[0].0;
      var target := Get(targets, symbol);
      if target.Some? && target.value != 0.0 && FindBySymbol(hs, symbol).Some? {
        var k := FindBySymbol(hs, symbol).value;
        var i :| 0 <= i < |targets| && targets[i] == (symbol, target.value);
        assert target.value > 0.0;
        assert entries[0].1 == hs[k].Value() / base;
        SellWithinHolding(k, hs[k], target.value, base);
      }
    }
  }

  /** p is the order OrderFor gives the position it names, at that position's allocation and target. */
  predicate IsOrderFor(hs: seq<Holding>, targets: Entries, base: real, p: Pending)
    requires PricesPositive(hs) && base != 0.0
  {
    && p.index < |hs|
    && HasTarget(targets, hs[p.index].symbol)
    && [p] == OrderFor(p.index, hs[p.index].price, hs[p.index].Value() / base, Get(targets, hs[p.index].symbol).value, base)
  }

  /** OrderSize, read for an order p already known to be the one OrderFor emits. */
  lemma OrderSized(index: nat, price: real, allocation: real, target: real, base: real, p: Pending)
    requires price > 0.0 && [p] == OrderFor(index, price, allocation, target, base)
    ensures WholeShares(p.quantity, OrderMoney(p.action, allocation, target, base), price)
  {
    OrderSize(index, price, allocation, target, base);
  }

  /** The order IsOrderFor names buys or sells the whole number of shares its money difference pays for. */
  lemma IsOrderForSize(hs: seq<Holding>, targets: Entries, base: real, p: Pending)
    requires PricesPositive(hs) && base != 0.0 && IsOrderFor(hs, targets, base, p)
    ensures var h := hs[p.index];
      WholeShares(p.quantity, OrderMoney(p.action, h.Value() / base, Get(targets, h.symbol).value, base), h.price)
  {
    var h := hs[p.index];
    OrderSized(p.index, h.price, h.Value() / base, Get(targets, h.symbol).value, base, p);
  }

  /** One pass of the loop: the entry emits the order its position's drift calls for, if any. */
  lemma EntrySized(hs: seq<Holding>, targets: Entries, base: real, entry: (string, real))
    requires PricesPositive(hs) && base != 0.0
    requires match FindBySymbol(hs, entry.0)
      case Some(k) => entry.1 == hs[k].Value() / base
      case None => true
    ensures var o := PendingFor(hs, targets, base, entry);
      o.Ok? ==> forall i :: 0 <= i < |o.value| ==> IsOrderFor(hs, targets, base, o.value[i])
  {
    var o := PendingFor(hs, targets, base, entry);
    if o.Ok? && o.value != [] {
      var k := FindBySymbol(hs, entry.0).value;
      assert [o.value[0]] == o.value;
    }
  }

  /** Lifted to the whole loop: every pending order is the one its position's drift calls for. */
  lemma {:induction false} PendingOrdersSized(hs: seq<Holding>, targets: Entries, base: real, entries: Entries)
    requires PricesPositive(hs) && base != 0.0 && AllocationsMatch(hs, base, entries)
    ensures var r := PendingOrders(hs, targets, base, entries);
      r.Ok? ==> forall i :: 0 <= i < |r.value| ==> IsOrderFor(hs, targets, base, r.value[i])
  {
    var r := PendingOrders(hs, targets, base, entries);
    if entries != [] && r.Ok? {
      assert AllocationsMatch(hs, base, entries[1..]) by {
        forall i | 0 <= i < |entries[1..]| ensures entries[1..][i] == entries[i + 1] { }
      }
      PendingOrdersSized(hs, targets, base, entries[1..]);
      assert 0 < |entries|;
      EntrySized(hs, targets, base, entries[0]);
      var o := PendingFor(hs, targets, base, entries[0]).value;
      var rest := PendingOrders(hs, targets, base, entries[1..]).value;
      assert r.value == o + rest;
      ConcatSized(hs, targets, base, o, rest);
    }
  }

  /** Orders that are each the ones their positions call for stay so when two runs are joined. */
  lemma ConcatSized(hs: seq<Holding>, targets: Entries, base: real, o: seq<Pending>, rest: seq<Pending>)
    requires PricesPositive(hs) && base != 0.0
    requires forall i :: 0 <= i < |o| ==> IsOrderFor(hs, targets, base, o[i])
    requires forall i :: 0 <= i < |rest| ==> IsOrderFor(hs, targets, base, rest[i])
    ensures forall i :: 0 <= i < |o + rest| ==> IsOrderFor(hs, targets, base, (o + rest)[i])
  {
    forall i | 0 <= i < |o + rest| ensures IsOrderFor(hs, targets, base, (o + rest)[i]) {
      if i < |o| {
        assert (o + rest)[i] == o[i];
      } else {
        assert (o + rest)[i] == rest[i - |o|];
      }
    }
  }

  /** Pending orders in strictly increasing position order: no position gets two. */
  predicate IndicesIncrease(ps: seq<Pending>) {
    forall i, j :: 0 <= i < j < |ps| ==> ps[i].index < ps[j].index
  }

  /**
   * When the entries list the positions in order and symbols are unique, the pending orders come in
   * position order, one at most per position, starting at the entry the scan starts at.
   */
  lemma {:induction false} PendingInPositionOrder(hs: seq<Holding>, targets: Entries, base: real, entries: Entries, from: nat)
    requires PricesPositive(hs) && UniqueSymbols(hs) && from <= |entries| == |hs|
    requires forall k :: 0 <= k < |hs| ==> entries[k].0 == hs[k].symbol
    ensures var r := PendingOrders(hs, targets, base, entries[from..]);
      r.Ok? ==> IndicesIncrease(r.value) && forall i :: 0 <= i < |r.value| ==> from <= r.value[i].index
    decreases |entries| - from
  {
    if from < |entries| {
      assert entries[from..][1..] == entries[from + 1..];
      assert entries[from..][0] == entries[from];
      PendingInPositionOrder(hs, targets, base, entries, from + 1);
      FindOwnSymbol(hs, from);
    }
  }
}
