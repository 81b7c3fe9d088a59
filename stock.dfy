/** A tradable stock: a symbol fixed at construction and a current price that the market feed overwrites. */
module StockEntity {
  import opened Wrappers

  class Stock {
    const symbol: string
    var price: real

    /** The price starts at 0 and is taken from the argument only when one is given and it is truthy (non-zero). */
    constructor (symbol: string, price: Option<real>)
      ensures this.symbol == symbol
      ensures price.Some? && price.value != 0.0 ==> this.price == price.value
      ensures price.None? || price.value == 0.0 ==> this.price == 0.0
    {
      this.symbol := symbol;
      this.price := 0.0;
      new;
      if price.Some? && price.value != 0.0 {
        this.price := price.value;
      }
    }

    function GetSymbol(): (s: string)
      ensures s == symbol
    {
      symbol
    }

    /** The price setter: overwrites the price and nothing else. */
    method CurrentPrice(price: real)
      modifies this`price
      ensures this.price == price
    {
      this.price := price;
    }

    function GetCurrentPrice(): (p: real)
      reads this
      ensures p == price
    {
      price
    }
  }

  /** A caller's view of the setter and the getter together: the price read back is the one set, the symbol is untouched. */
  method RepriceThenRead(s: Stock, p: real) returns (read: real, symbol: string)
    modifies s
    ensures read == p && s.price == p
    ensures symbol == s.symbol
  {
    s.CurrentPrice(p);
    read := s.GetCurrentPrice();
    symbol := s.GetSymbol();
  }
}
