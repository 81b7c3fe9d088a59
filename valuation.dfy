/**
 * Values the portfolio's positions: a snapshot of each position, the stocks-only portfolio value,
 * the ordered string-to-number maps the portfolio keeps (targets and current allocations), and
 * the current allocation of each symbol.
 */
module Valuation {
  import opened Wrappers

  /** One position as seen at one moment: its stock's symbol and current price, and the quantity held. */
  datatype Holding = Holding(symbol: string, price: real, quantity: int) {
    /** Market value of the position: price times quantity. */
    function Value(): real {
      price * quantity as real
    }
  }

  /** The value of the positions alone; the cash balance is not part of it (calculatePortfolioValue). */
  function StocksValue(hs: seq<Holding>): real {
    if hs == [] then 0.0 else hs[0].Value() + StocksValue(hs[1..])
  }

  /** Adding a position adds exactly its value to the stocks value. */
  lemma {:induction false} StocksValueAppend(hs: seq<Holding>, h: Holding)
    ensures StocksValue(hs + [h]) == StocksValue(hs) + h.Value()
  {
    if hs == [] {
      assert [] + [h] == [h];
      assert [h][1..] == [];
    } else {
      assert (hs + [h])[1..] == hs[1..] + [h];
      StocksValueAppend(hs[1..], h);
    }
  }

  /**
   * addPosition pays price * quantity out of cash for the holding it appends, so stocks value plus
   * cash is the same after it as before.
   */
  lemma {:induction false} AddedPositionKeepsTotal(hs: seq<Holding>, cash: real, h: Holding)
    ensures StocksValue(hs + [h]) + (cash - h.price * h.quantity as real) == StocksValue(hs) + cash
  {
    StocksValueAppend(hs, h);
  }

  predicate PricesPositive(hs: seq<Holding>) {
    forall k :: 0 <= k < |hs| ==> hs[k].price > 0.0
  }

  predicate UniqueSymbols(hs: seq<Holding>) {
    forall i, j :: 0 <= i < j < |hs| ==> hs[i].symbol != hs[j].symbol
  }

  /** positions.find(p => p.getStock().getSymbol() === symbol): the first position with that symbol. */
  function FindBySymbol(hs: seq<Holding>, symbol: string): (r: Option<nat>)
    ensures r.Some? ==> r.value < |hs| && hs[r.value].symbol == symbol
    ensures r.Some? ==> forall k :: 0 <= k < r.value ==> hs[k].symbol != symbol
    ensures r.None? <==> forall k :: 0 <= k < |hs| ==> hs[k].symbol != symbol
  {
    if hs == [] then None
    else if hs[0].symbol == symbol then Some(0)
    else match FindBySymbol(hs[1..], symbol)
      case None => None
      case Some(k) => Some(k + 1)
  }

  /** With unique symbols, looking up a position's own symbol finds that position. */
  lemma FindOwnSymbol(hs: seq<Holding>, k: nat)
    requires UniqueSymbols(hs) && k < |hs|
    ensures FindBySymbol(hs, hs[k].symbol) == Some(k)
  {
  }

  /**
   * A JavaScript Map<string, number> as its entries in insertion order. A Map never holds a key twice,
   * which DistinctKeys states; the functions below keep it.
   */
  type Entries = seq<(string, real)>

  predicate DistinctKeys(m: Entries) {
    forall i, j :: 0 <= i < j < |m| ==> m[i].0 != m[j].0
  }

  function Keys(m: Entries): set<string> {
    if m == [] then {} else {m[0].0} + Keys(m[1..])
  }

  /** Map.get: the value stored under the key, if any. */
  function Get(m: Entries, key: string): (r: Option<real>)
    ensures r.Some? <==> key in Keys(m)
    ensures r.Some? ==> (key, r.value) in m
  {
    if m == [] then None
    else if m[0].0 == key then Some(m[0].1)
    else Get(m[1..], key)
  }

  /** Map.set: overwrite the value of a present key where it stands, or append a new entry. */
  function Set(m: Entries, key: string, v: real): (r: Entries)
    ensures Keys(r) == Keys(m) + {key}
    ensures Get(r, key) == Some(v)
    ensures forall other :: other != key ==> Get(r, other) == Get(m, other)
    ensures key !in Keys(m) ==> r == m + [(key, v)]
  {
    if m == [] then [(key, v)]
    else if m[0].0 == key then [(key, v)] + m[1..]
    else
      assert ([m[0]] + Set(m[1..], key, v))[1..] == Set(m[1..], key, v);
      [m[0]] + Set(m[1..], key, v)
  }

  /** Array.from(m.values()).reduce((sum, val) => sum + val, 0). */
  function SumValues(m: Entries): real {
    if m == [] then 0.0 else m[0].1 + SumValues(m[1..])
  }

  /**
   * calculateCurrentAllocations: a fold over the positions in order that sets each symbol's entry to
   * its value divided by the stocks value.
   */
  function CurrentAllocations(hs: seq<Holding>): Entries
    requires StocksValue(hs) != 0.0
  {
    AllocationsOver(hs, StocksValue(hs))
  }

  function AllocationsOver(hs: seq<Holding>, total: real): Entries
    requires total != 0.0
  {
    if hs == [] then []
    else
      var last := hs[|hs| - 1];
      Set(AllocationsOver(hs[..|hs| - 1], total), last.symbol, last.Value() / total)
  }

  /** The allocation map has exactly the positions' symbols as keys, with no key twice. */
  lemma {:induction false} AllocationKeys(hs: seq<Holding>, total: real)
    requires total != 0.0
    ensures DistinctKeys(AllocationsOver(hs, total))
    ensures forall s :: s in Keys(AllocationsOver(hs, total)) <==> FindBySymbol(hs, s).Some?
  {
    if hs != [] {
      var init := hs[..|hs| - 1];
      var last := hs[|hs| - 1];
      AllocationKeys(init, total);
      var m := AllocationsOver(init, total);
      SetKeepsDistinct(m, last.symbol, last.Value() / total);
      assert Keys(AllocationsOver(hs, total)) == Keys(m) + {last.symbol};
      forall s
        ensures s in Keys(AllocationsOver(hs, total)) <==> FindBySymbol(hs, s).Some?
      {
        FindInPrefix(hs, s);
      }
    }
  }

  /** A symbol occurs in a non-empty list of positions iff it occurs in all but the last, or is the last one's. */
  lemma FindInPrefix(hs: seq<Holding>, s: string)
    requires hs != []
    ensures FindBySymbol(hs, s).Some? <==> FindBySymbol(hs[..|hs| - 1], s).Some? || hs[|hs| - 1].symbol == s
  {
    var init := hs[..|hs| - 1];
    assert forall j :: 0 <= j < |init| ==> init[j] == hs[j];
    if FindBySymbol(init, s).Some? {
      var k := FindBySymbol(init, s).value;
      assert hs[k].symbol == s;
    }
  }

  lemma {:induction false} SetKeepsDistinct(m: Entries, key: string, v: real)
    requires DistinctKeys(m)
    ensures DistinctKeys(Set(m, key, v))
  {
    if m != [] && m[0].0 != key {
      assert DistinctKeys(m[1..]);
      SetKeepsDistinct(m[1..], key, v);
      KeysIndex(m[1..]);
      KeysIndex(Set(m[1..], key, v));
      var r := Set(m, key, v);
      forall i, j | 0 <= i < j < |r|
        ensures r[i].0 != r[j].0
      {
        if i == 0 {
          assert r[j].0 in Keys(Set(m[1..], key, v));
          assert m[0].0 !in Keys(m[1..]);
        }
      }
    } else if m != [] {
      KeysIndex(m[1..]);
      var r := Set(m, key, v);
      forall i, j | 0 <= i < j < |r|
        ensures r[i].0 != r[j].0
      {
        if i == 0 {
          assert r[j] == m[j];
        }
      }
    }
  }

  /** The keys of a map are the first components of its entries. */
  lemma {:induction false} KeysIndex(m: Entries)
    ensures forall i :: 0 <= i < |m| ==> m[i].0 in Keys(m)
    ensures forall key :: key in Keys(m) ==> exists i :: 0 <= i < |m| && m[i].0 == key
  {
    if m != [] {
      KeysIndex(m[1..]);
      forall key | key in Keys(m)
        ensures exists i :: 0 <= i < |m| && m[i].0 == key
      {
        if key != m[0].0 {
          assert Keys(m) == {m[0].0} + Keys(m[1..]);
          assert key in Keys(m[1..]);
          var i :| 0 <= i < |m[1..]| && m[1..][i].0 == key;
          assert m[i + 1].0 == key;
        }
      }
    }
  }

  /** With unique symbols the allocation map lists every position, in position order, with value / total. */
  lemma {:induction false} AllocationsUnique(hs: seq<Holding>, total: real)
    requires total != 0.0 && UniqueSymbols(hs)
    ensures |AllocationsOver(hs, total)| == |hs|
    ensures forall k :: 0 <= k < |hs| ==> AllocationsOver(hs, total)[k] == (hs[k].symbol, hs[k].Value() / total)
  {
    if hs != [] {
      var init := hs[..|hs| - 1];
      var last := hs[|hs| - 1];
      assert UniqueSymbols(init);
      AllocationsUnique(init, total);
      AllocationKeys(init, total);
      assert FindBySymbol(init, last.symbol).None?;
    }
  }

  /**
   * Allocations are shares of the stocks-only value: with unique symbols they sum to one
   * whatever the cash balance.
   */
  lemma AllocationsSumToOne(hs: seq<Holding>)
    requires StocksValue(hs) != 0.0 && UniqueSymbols(hs)
    ensures SumValues(CurrentAllocations(hs)) == 1.0
  {
    var total := StocksValue(hs);
    assert total / total == 1.0;
    var m := AllocationsOver(hs, total);
    assert CurrentAllocations(hs) == m;
    AllocationsUnique(hs, total);
    SumOfShares(hs, m, total);
  }

  lemma {:induction false} SumOfShares(hs: seq<Holding>, m: Entries, total: real)
    requires total != 0.0 && |m| == |hs|
    requires forall k :: 0 <= k < |hs| ==> m[k].1 == hs[k].Value() / total
    ensures SumValues(m) == StocksValue(hs) / total
  {
    if hs != [] {
      SumOfShares(hs[1..], m[1..], total);
      var a, b := hs[0].Value(), StocksValue(hs[1..]);
      assert a / total + b / total == (a + b) / total;
    }
  }
}
