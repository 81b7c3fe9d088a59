/** A position: a reference to a stock that never changes, and a quantity that buys and sells adjust. */
module PositionEntity {
  import opened StockEntity
  import opened Valuation

  class Position {
    const stock: Stock
    var quantity: int

    constructor (stock: Stock, quantity: int)
      ensures this.stock == stock && this.quantity == quantity
    {
      this.stock := stock;
      this.quantity := quantity;
    }

    /** The position as it stands now, read through the stock's current price. */
    function View(): Holding
      reads this, stock
    {
      Holding(stock.symbol, stock.price, quantity)
    }

    /** Recomputed on every call from the stock's price at that moment: nothing is cached. */
    function GetPositionValue(): (v: real)
      reads this, stock
      ensures v == stock.price * quantity as real
    {
      View().Value()
    }

    function GetStock(): (s: Stock)
      ensures s == stock
    {
      stock
    }

    function GetQuantity(): (q: int)
      reads this
      ensures q == quantity
    {
      quantity
    }

    method Buy(n: int)
      modifies this
      ensures quantity == old(quantity) + n
    {
      quantity := quantity + n;
    }

    /** Decreases the quantity with no check against going below zero. */
    method Sell(n: int)
      modifies this
      ensures quantity == old(quantity) - n
    {
      quantity := quantity - n;
    }
  }

  /** The objects a list of positions reads: the positions and their stocks. */
  ghost function Footprint(ps: seq<Position>): set<object> {
    (set p | p in ps :: p as object) + (set p | p in ps :: p.stock as object)
  }

  lemma FootprintSubset(ps: seq<Position>, qs: seq<Position>)
    requires forall q :: q in qs ==> q in ps
    ensures Footprint(qs) <= Footprint(ps)
  {
  }

  /** A snapshot of a list of positions, one holding each, in the same order. */
  function Views(ps: seq<Position>): (hs: seq<Holding>)
    reads Footprint(ps)
    ensures |hs| == |ps|
    ensures forall k :: 0 <= k < |ps| ==> hs[k] == ps[k].View()
  {
    if ps == [] then [] else [ps[0].View()] + Views(ps[1..])
  }

  /** One more position adds its own view at the end of the snapshot. */
  lemma ViewsAppend(ps: seq<Position>, p: Position)
    ensures Views(ps + [p]) == Views(ps) + [p.View()]
  {
    var qs := ps + [p];
    assert forall k :: 0 <= k < |ps| ==> qs[k] == ps[k];
  }

  /**
   * A buy followed by a sell of the same amount restores the quantity and so the whole snapshot
   * (the stock is a constant field: no method can replace it).
   */
  method BuyThenSell(p: Position, n: int)
    modifies p
    ensures p.quantity == old(p.quantity)
    ensures p.View() == old(p.View())
  {
    p.Buy(n);
    p.Sell(n);
  }

  /** After the stock is repriced, the position's value follows the new price. */
  method ValueAfterRepricing(p: Position, price: real) returns (v: real)
    modifies p.stock
    ensures v == price * p.quantity as real
    ensures p.quantity == old(p.quantity)
  {
    p.stock.CurrentPrice(price);
    v := p.GetPositionValue();
  }
}
