/**
 * The position book of a user: its records, the merge a buy performs (weighted-average cost
 * basis) and the first-position-first liquidation a sell performs, as functions on values.
 */
module PositionBook {
  import opened Wrappers
  import Seqs

  /** One open position: `{symbol, quantity, purchasePrice, purchaseDate}`. */
  datatype Position = Position(symbol: string, quantity: real, purchasePrice: real, purchaseDate: int)

  ghost predicate AllPositive(ps: seq<Position>)
  {
    forall i :: 0 <= i < |ps| ==> ps[i].quantity > 0.0
  }

  /** The symbols held, as a set. */
  function SymbolsOf(ps: seq<Position>): set<string>
  {
    set i | 0 <= i < |ps| :: ps[i].symbol
  }

  /** Sum of the quantities of all positions in `symbol`. */
  function SymbolTotal(ps: seq<Position>, symbol: string): real
  {
    if ps == [] then 0.0
    else (if ps[0].symbol == symbol then ps[0].quantity else 0.0) + SymbolTotal(ps[1..], symbol)
  }

  lemma {:induction false} SymbolTotalConcat(a: seq<Position>, b: seq<Position>, symbol: string)
    ensures SymbolTotal(a + b, symbol) == SymbolTotal(a, symbol) + SymbolTotal(b, symbol)
  {
    if a == [] {
      assert a + b == b;
    } else {
      assert (a + b)[1..] == a[1..] + b;
      SymbolTotalConcat(a[1..], b, symbol);
    }
  }

  /** Extending a prefix by one position adds that position's quantity to its own symbol only. */
  lemma SymbolTotalSnoc(ps: seq<Position>, i: nat, symbol: string)
    requires i < |ps|
    ensures SymbolTotal(ps[..i + 1], symbol)
         == SymbolTotal(ps[..i], symbol) + (if ps[i].symbol == symbol then ps[i].quantity else 0.0)
  {
    assert ps[..i + 1] == ps[..i] + [ps[i]];
    SymbolTotalConcat(ps[..i], [ps[i]], symbol);
    assert [ps[i]][1..] == [];
  }

  /** A symbol that no position holds has total zero. */
  lemma {:induction false} SymbolTotalAbsent(ps: seq<Position>, symbol: string)
    requires symbol !in SymbolsOf(ps)
    ensures SymbolTotal(ps, symbol) == 0.0
  {
    if ps != [] {
      assert ps[0].symbol in SymbolsOf(ps);
      assert SymbolsOf(ps[1..]) <= SymbolsOf(ps) by {
        forall s | s in SymbolsOf(ps[1..]) ensures s in SymbolsOf(ps) {
          var k :| 0 <= k < |ps[1..]| && ps[1..][k].symbol == s;
          assert ps[k + 1].symbol == s;
        }
      }
      SymbolTotalAbsent(ps[1..], symbol);
    }
  }

  /** `positions.find(pos => pos.symbol === symbol)`, as the index of the first match. */
  function FirstIndex(ps: seq<Position>, symbol: string): (r: Option<nat>)
    ensures r.Some? ==> r.value < |ps| && ps[r.value].symbol == symbol
    ensures r.Some? ==> forall j :: 0 <= j < r.value ==> ps[j].symbol != symbol
    ensures r.None? <==> symbol !in SymbolsOf(ps)
  {
    if ps == [] then None
    else if ps[0].symbol == symbol then Some(0)
    else
      var rest := FirstIndex(ps[1..], symbol);
      assert SymbolsOf(ps) == {ps[0].symbol} + SymbolsOf(ps[1..]) by {
        forall s | s in SymbolsOf(ps) ensures s in {ps[0].symbol} + SymbolsOf(ps[1..]) {
          var k :| 0 <= k < |ps| && ps[k].symbol == s;
          if k > 0 { assert ps[1..][k - 1].symbol == s; }
        }
        forall s | s in SymbolsOf(ps[1..]) ensures s in SymbolsOf(ps) {
          var k :| 0 <= k < |ps[1..]| && ps[1..][k].symbol == s;
          assert ps[k + 1].symbol == s;
        }
      }
      match rest
      case Some(i) => Some(i + 1)
      case None => None
  }

  /**
   * The position-book part of a buy of `quantity` at `price`: the first position in `symbol`
   * takes the weighted-average price and the added quantity; when none exists, a new position
   * `{symbol, quantity, price, date}` is appended.
   */
  function ApplyBuy(ps: seq<Position>, symbol: string, quantity: real, price: real, date: int): (r: seq<Position>)
    requires AllPositive(ps) && quantity > 0.0
    ensures AllPositive(r)
  {
    match FirstIndex(ps, symbol)
    case Some(i) =>
      ps[i := ps[i].(purchasePrice := AveragePrice(ps[i].purchasePrice, ps[i].quantity, price, quantity),
                     quantity := ps[i].quantity + quantity)]
    case None => ps + [Position(symbol, quantity, price, date)]
  }

  /**
   * A buy of a symbol already held changes only the first position in it: its quantity grows by
   * `quantity` and its cost (price times quantity) grows by `price * quantity`; nothing is added.
   */
  lemma BuyIntoHeld(ps: seq<Position>, symbol: string, quantity: real, price: real, date: int)
    requires AllPositive(ps) && quantity > 0.0
    requires FirstIndex(ps, symbol).Some?
    ensures var i := FirstIndex(ps, symbol).value; var r := ApplyBuy(ps, symbol, quantity, price, date);
      && |r| == |ps|
      && (forall j :: 0 <= j < |ps| && j != i ==> r[j] == ps[j])
      && r[i].symbol == symbol && r[i].purchaseDate == ps[i].purchaseDate
      && r[i].quantity == ps[i].quantity + quantity
      && Cost(r[i]) == Cost(ps[i]) + price * quantity
  {
    var i := FirstIndex(ps, symbol).value;
    var m := ps[i].(purchasePrice := AveragePrice(ps[i].purchasePrice, ps[i].quantity, price, quantity),
                    quantity := ps[i].quantity + quantity);
    assert ApplyBuy(ps, symbol, quantity, price, date) == ps[i := m];
    MergedLot(ps[i], price, quantity, price * quantity);
  }

  /** The merged lot costs what the old lot cost plus `c`, the cost of the lot bought. */
  lemma MergedLot(p: Position, price: real, quantity: real, c: real)
    requires p.quantity > 0.0 && quantity > 0.0 && c == price * quantity
    ensures Cost(p.(purchasePrice := AveragePrice(p.purchasePrice, p.quantity, price, quantity),
                    quantity := p.quantity + quantity)) == Cost(p) + c
  {
    AveragePriceCost(p.purchasePrice, p.quantity, price, quantity);
  }

  /** What a position cost: its average purchase price times its quantity. */
  function Cost(p: Position): real
  {
    p.purchasePrice * p.quantity
  }

  /** The weighted average of two (price, quantity) lots, as the buy handlers compute it. */
  function AveragePrice(oldPrice: real, oldQuantity: real, price: real, quantity: real): real
    requires oldQuantity + quantity != 0.0
  {
    (oldPrice * oldQuantity + price * quantity) / (oldQuantity + quantity)
  }

  /** The average price times the combined quantity is the combined cost. */
  lemma AveragePriceCost(oldPrice: real, oldQuantity: real, price: real, quantity: real)
    requires oldQuantity + quantity != 0.0
    ensures AveragePrice(oldPrice, oldQuantity, price, quantity) * (oldQuantity + quantity)
         == oldPrice * oldQuantity + price * quantity
  {
    var cost := oldPrice * oldQuantity + price * quantity;
    var q := oldQuantity + quantity;
    assert AveragePrice(oldPrice, oldQuantity, price, quantity) == cost / q;
    DivTimes(cost, q);
  }

  lemma DivTimes(x: real, y: real)
    requires y != 0.0
    ensures (x / y) * y == x
  {
  }

  /** A buy of a symbol not held appends exactly one position at the execution price. */
  lemma BuyNewSymbol(ps: seq<Position>, symbol: string, quantity: real, price: real, date: int)
    requires AllPositive(ps) && quantity > 0.0
    requires symbol !in SymbolsOf(ps)
    ensures ApplyBuy(ps, symbol, quantity, price, date) == ps + [Position(symbol, quantity, price, date)]
  {
  }

  /** A buy raises its symbol's total by exactly the bought quantity and leaves other totals alone. */
  lemma BuyTotals(ps: seq<Position>, symbol: string, quantity: real, price: real, date: int, other: string)
    requires AllPositive(ps) && quantity > 0.0
    ensures SymbolTotal(ApplyBuy(ps, symbol, quantity, price, date), other)
         == SymbolTotal(ps, other) + (if other == symbol then quantity else 0.0)
  {
    var r := ApplyBuy(ps, symbol, quantity, price, date);
    match FirstIndex(ps, symbol)
    case Some(i) =>
      assert ps == ps[..i] + [ps[i]] + ps[i + 1..];
      assert r == ps[..i] + [r[i]] + ps[i + 1..];
      SymbolTotalConcat(ps[..i] + [ps[i]], ps[i + 1..], other);
      SymbolTotalConcat(ps[..i], [ps[i]], other);
      SymbolTotalConcat(ps[..i] + [r[i]], ps[i + 1..], other);
      SymbolTotalConcat(ps[..i], [r[i]], other);
      assert [ps[i]][1..] == [] && [r[i]][1..] == [];
    case None =>
      SymbolTotalConcat(ps, [Position(symbol, quantity, price, date)], other);
      assert [Position(symbol, quantity, price, date)][1..] == [];
  }

  /** At most one position per symbol, as the merge on buy intends. */
  ghost predicate OnePerSymbol(ps: seq<Position>)
  {
    forall i, j :: 0 <= i < j < |ps| ==> ps[i].symbol != ps[j].symbol
  }

  lemma BuyKeepsDistinct(ps: seq<Position>, symbol: string, quantity: real, price: real, date: int)
    requires AllPositive(ps) && quantity > 0.0
    requires OnePerSymbol(ps)
    ensures OnePerSymbol(ApplyBuy(ps, symbol, quantity, price, date))
  {
    var r := ApplyBuy(ps, symbol, quantity, price, date);
    match FirstIndex(ps, symbol)
    case Some(i) =>
      assert forall j :: 0 <= j < |r| ==> r[j].symbol == ps[j].symbol;
    case None =>
      forall j | 0 <= j < |ps| ensures ps[j].symbol != symbol {
        assert ps[j].symbol in SymbolsOf(ps);
      }
  }

  /** Buys of one symbol at successive (quantity, price) fills, applied in order. */
  datatype Fill = Fill(quantity: real, price: real)

  ghost predicate PositiveFills(fills: seq<Fill>)
  {
    forall k :: 0 <= k < |fills| ==> fills[k].quantity > 0.0
  }

  function ApplyBuys(ps: seq<Position>, symbol: string, fills: seq<Fill>, date: int): (r: seq<Position>)
    requires AllPositive(ps) && PositiveFills(fills)
    ensures AllPositive(r)
    decreases |fills|
  {
    if fills == [] then ps
    else ApplyBuys(ApplyBuy(ps, symbol, fills[0].quantity, fills[0].price, date), symbol, fills[1..], date)
  }

  /** Price times quantity of the first position in `symbol`, or zero when none is held. */
  function HeldCost(ps: seq<Position>, symbol: string): real
  {
    match FirstIndex(ps, symbol)
    case Some(i) => Cost(ps[i])
    case None => 0.0
  }

  function HeldQuantity(ps: seq<Position>, symbol: string): real
  {
    match FirstIndex(ps, symbol)
    case Some(i) => ps[i].quantity
    case None => 0.0
  }

  function FillsCost(fills: seq<Fill>): real
  {
    if fills == [] then 0.0 else FillCost(fills[0]) + FillsCost(fills[1..])
  }

  function FillCost(f: Fill): real
  {
    f.price * f.quantity
  }

  function FillsQuantity(fills: seq<Fill>): real
  {
    if fills == [] then 0.0 else fills[0].quantity + FillsQuantity(fills[1..])
  }

  /** After a buy, the first position in the symbol is at the same index, or at the end when it is new. */
  lemma FirstIndexAfterBuy(ps: seq<Position>, symbol: string, quantity: real, price: real, date: int)
    requires AllPositive(ps) && quantity > 0.0
    ensures FirstIndex(ApplyBuy(ps, symbol, quantity, price, date), symbol)
         == if FirstIndex(ps, symbol).Some? then FirstIndex(ps, symbol) else Some(|ps|)
  {
    var r := ApplyBuy(ps, symbol, quantity, price, date);
    var k := FirstIndex(r, symbol);
    match FirstIndex(ps, symbol)
    case Some(i) =>
      assert |r| == |ps| && r[i].symbol == symbol;
      assert forall j :: 0 <= j < |ps| ==> r[j].symbol == ps[j].symbol;
      assert symbol in SymbolsOf(r);
    case None =>
      assert r == ps + [Position(symbol, quantity, price, date)];
      assert r[|ps|].symbol == symbol;
      assert symbol in SymbolsOf(r);
      forall j | 0 <= j < |ps| ensures r[j].symbol != symbol {
        assert ps[j].symbol in SymbolsOf(ps);
      }
  }

  /** One buy adds `quantity * price` to the held cost and `quantity` to the held quantity. */
  lemma BuyCost(ps: seq<Position>, symbol: string, quantity: real, price: real, date: int)
    requires AllPositive(ps) && quantity > 0.0
    ensures HeldCost(ApplyBuy(ps, symbol, quantity, price, date), symbol) == HeldCost(ps, symbol) + FillCost(Fill(quantity, price))
    ensures HeldQuantity(ApplyBuy(ps, symbol, quantity, price, date), symbol) == HeldQuantity(ps, symbol) + quantity
  {
    BuyCostIs(ps, symbol, quantity, price, date, FillCost(Fill(quantity, price)));
  }

  lemma BuyCostIs(ps: seq<Position>, symbol: string, quantity: real, price: real, date: int, c: real)
    requires AllPositive(ps) && quantity > 0.0 && c == price * quantity
    ensures HeldCost(ApplyBuy(ps, symbol, quantity, price, date), symbol) == HeldCost(ps, symbol) + c
    ensures HeldQuantity(ApplyBuy(ps, symbol, quantity, price, date), symbol) == HeldQuantity(ps, symbol) + quantity
  {
    var r := ApplyBuy(ps, symbol, quantity, price, date);
    FirstIndexAfterBuy(ps, symbol, quantity, price, date);
    if FirstIndex(ps, symbol).Some? {
      BuyIntoHeld(ps, symbol, quantity, price, date);
    } else {
      assert r[|ps|] == Position(symbol, quantity, price, date);
    }
  }

  /**
   * The weighted-average invariant: after any sequence of buys of one symbol, the first position's
   * price times quantity has grown by the sum of the fills' price times quantity, and its quantity
   * by the sum of the fills' quantities.
   */
  lemma {:induction false} WeightedAverage(ps: seq<Position>, symbol: string, fills: seq<Fill>, date: int)
    requires AllPositive(ps) && PositiveFills(fills)
    ensures HeldCost(ApplyBuys(ps, symbol, fills, date), symbol) == HeldCost(ps, symbol) + FillsCost(fills)
    ensures HeldQuantity(ApplyBuys(ps, symbol, fills, date), symbol) == HeldQuantity(ps, symbol) + FillsQuantity(fills)
    decreases |fills|
  {
    if fills != [] {
      var next := ApplyBuy(ps, symbol, fills[0].quantity, fills[0].price, date);
      BuyCost(ps, symbol, fills[0].quantity, fills[0].price, date);
      assert PositiveFills(fills[1..]) by {
        forall k | 0 <= k < |fills[1..]| ensures fills[1..][k].quantity > 0.0 {
          assert fills[1..][k] == fills[k + 1];
        }
      }
      WeightedAverage(next, symbol, fills[1..], date);
      assert fills[0] == Fill(fills[0].quantity, fills[0].price);
    }
  }

  /**
   * The position-book part of a sell of `remaining` shares: positions in `symbol` are visited in
   * list order; one whose quantity does not exceed what is left to sell is removed and its
   * quantity deducted; the first one holding more is reduced by what is left, and the rest of the
   * book is kept as it is.
   */
  function Liquidate(ps: seq<Position>, symbol: string, remaining: real): seq<Position>
  {
    if ps == [] then []
    else if ps[0].symbol != symbol then [ps[0]] + Liquidate(ps[1..], symbol, remaining)
    else if ps[0].quantity > remaining then [ps[0].(quantity := ps[0].quantity - remaining)] + ps[1..]
    else Liquidate(ps[1..], symbol, remaining - ps[0].quantity)
  }

  /** Selling `remaining` of at most what is owned lowers the symbol's total by exactly that amount. */
  lemma {:induction false} LiquidateTotal(ps: seq<Position>, symbol: string, remaining: real)
    requires 0.0 <= remaining <= SymbolTotal(ps, symbol)
    ensures SymbolTotal(Liquidate(ps, symbol, remaining), symbol) == SymbolTotal(ps, symbol) - remaining
  {
    if ps != [] {
      var rest := Liquidate(ps[1..], symbol, remaining);
      if ps[0].symbol != symbol {
        LiquidateTotal(ps[1..], symbol, remaining);
        assert ([ps[0]] + rest)[1..] == rest;
      } else if ps[0].quantity > remaining {
        assert ([ps[0].(quantity := ps[0].quantity - remaining)] + ps[1..])[1..] == ps[1..];
      } else {
        LiquidateTotal(ps[1..], symbol, remaining - ps[0].quantity);
      }
    }
  }

  /** The positions in symbols other than `symbol`, in order. */
  function WithoutSymbol(ps: seq<Position>, symbol: string): seq<Position>
  {
    Seqs.Filter(ps, (p: Position) => p.symbol != symbol)
  }

  /** The positions in `symbol` (its lots), in order. */
  function Lots(ps: seq<Position>, symbol: string): seq<Position>
  {
    Seqs.Filter(ps, (p: Position) => p.symbol == symbol)
  }

  /** A sell leaves every position in another symbol untouched and in its original order. */
  lemma {:induction false} LiquidateKeepsOthers(ps: seq<Position>, symbol: string, remaining: real)
    ensures WithoutSymbol(Liquidate(ps, symbol, remaining), symbol) == WithoutSymbol(ps, symbol)
  {
    var keep := (p: Position) => p.symbol != symbol;
    if ps != [] {
      if ps[0].symbol != symbol {
        LiquidateKeepsOthers(ps[1..], symbol, remaining);
        assert ([ps[0]] + Liquidate(ps[1..], symbol, remaining))[1..] == Liquidate(ps[1..], symbol, remaining);
      } else if ps[0].quantity > remaining {
        var r := [ps[0].(quantity := ps[0].quantity - remaining)] + ps[1..];
        assert r[1..] == ps[1..];
        assert Seqs.Filter(r, keep) == Seqs.Filter(ps[1..], keep);
      } else {
        LiquidateKeepsOthers(ps[1..], symbol, remaining - ps[0].quantity);
      }
    }
  }

  /**
   * Which lots a sell consumes depends only on the lots of that symbol, taken in list order:
   * liquidating the whole book and then looking at the symbol's lots gives the same lots as
   * liquidating the lots alone.
   */
  lemma {:induction false} LiquidateLots(ps: seq<Position>, symbol: string, remaining: real)
    ensures Lots(Liquidate(ps, symbol, remaining), symbol) == Liquidate(Lots(ps, symbol), symbol, remaining)
  {
    var mine := (p: Position) => p.symbol == symbol;
    if ps != [] {
      var tail := Lots(ps[1..], symbol);
      if ps[0].symbol != symbol {
        LiquidateLots(ps[1..], symbol, remaining);
        var r := [ps[0]] + Liquidate(ps[1..], symbol, remaining);
        assert r[1..] == Liquidate(ps[1..], symbol, remaining);
        assert Lots(r, symbol) == Lots(r[1..], symbol);
        assert Lots(ps, symbol) == tail;
      } else {
        assert Lots(ps, symbol) == [ps[0]] + tail;
        assert ([ps[0]] + tail)[1..] == tail;
        if ps[0].quantity > remaining {
          var r := [ps[0].(quantity := ps[0].quantity - remaining)] + ps[1..];
          assert r[1..] == ps[1..];
          assert Lots(r, symbol) == [r[0]] + tail;
        } else {
          LiquidateLots(ps[1..], symbol, remaining - ps[0].quantity);
        }
      }
    }
  }

  /** A sell of a non-negative amount keeps every remaining quantity positive. */
  lemma {:induction false} LiquidateKeepsPositive(ps: seq<Position>, symbol: string, remaining: real)
    requires AllPositive(ps) && remaining >= 0.0
    ensures AllPositive(Liquidate(ps, symbol, remaining))
  {
    if ps != [] {
      assert AllPositive(ps[1..]) by {
        forall k | 0 <= k < |ps[1..]| ensures ps[1..][k].quantity > 0.0 {
          assert ps[1..][k] == ps[k + 1];
        }
      }
      if ps[0].symbol != symbol {
        LiquidateKeepsPositive(ps[1..], symbol, remaining);
      } else if ps[0].quantity <= remaining {
        LiquidateKeepsPositive(ps[1..], symbol, remaining - ps[0].quantity);
      }
    }
  }

  /** What one position is worth at `price`: the quote price of its symbol times its quantity. */
  function Worth(price: string -> real, p: Position): real
  {
    price(p.symbol) * p.quantity
  }

  /** The market value of a book at the given prices: price of each position's symbol times its quantity. */
  function MarketValue(ps: seq<Position>, price: string -> real): real
  {
    if ps == [] then 0.0
    else MarketValue(ps[..|ps| - 1], price) + Worth(price, ps[|ps| - 1])
  }

  /** Market value only depends on the prices of the symbols held. */
  lemma {:induction false} MarketValueAgrees(ps: seq<Position>, f: string -> real, g: string -> real)
    requires forall k :: 0 <= k < |ps| ==> f(ps[k].symbol) == g(ps[k].symbol)
    ensures MarketValue(ps, f) == MarketValue(ps, g)
  {
    if ps != [] {
      MarketValueAgrees(ps[..|ps| - 1], f, g);
    }
  }

  /** Market value is additive over concatenation. */
  lemma {:induction false} MarketValueConcat(a: seq<Position>, b: seq<Position>, price: string -> real)
    ensures MarketValue(a + b, price) == MarketValue(a, price) + MarketValue(b, price)
  {
    if b == [] {
      assert a + b == a;
    } else {
      var n := |b| - 1;
      assert (a + b)[..|a + b| - 1] == a + b[..n];
      MarketValueConcat(a, b[..n], price);
    }
  }

  /** Market value of a book with position `p` at index `i`, in terms of the other positions. */
  lemma MarketValueAt(ps: seq<Position>, i: nat, p: Position, price: string -> real)
    requires i < |ps|
    ensures MarketValue(ps[i := p], price) == MarketValue(ps, price) - Worth(price, ps[i]) + Worth(price, p)
  {
    assert ps == ps[..i] + [ps[i]] + ps[i + 1..];
    assert ps[i := p] == ps[..i] + [p] + ps[i + 1..];
    MarketValueConcat(ps[..i] + [ps[i]], ps[i + 1..], price);
    MarketValueConcat(ps[..i], [ps[i]], price);
    MarketValueConcat(ps[..i] + [p], ps[i + 1..], price);
    MarketValueConcat(ps[..i], [p], price);
    assert [p][..0] == [] && [ps[i]][..0] == [];
  }

  /** A buy adds the bought quantity, valued at `value`, to the book's market value at `value`. */
  lemma BuyValue(ps: seq<Position>, symbol: string, quantity: real, price: real, date: int, value: string -> real)
    requires AllPositive(ps) && quantity > 0.0
    ensures MarketValue(ApplyBuy(ps, symbol, quantity, price, date), value) == MarketValue(ps, value) + value(symbol) * quantity
  {
    match FirstIndex(ps, symbol)
    case Some(i) => BuyValueHeld(ps, symbol, quantity, price, date, value, i);
    case None => BuyValueNew(ps, symbol, quantity, price, date, value);
  }

  lemma BuyValueHeld(ps: seq<Position>, symbol: string, quantity: real, price: real, date: int, value: string -> real, i: nat)
    requires AllPositive(ps) && quantity > 0.0 && FirstIndex(ps, symbol) == Some(i)
    ensures MarketValue(ApplyBuy(ps, symbol, quantity, price, date), value) == MarketValue(ps, value) + value(symbol) * quantity
  {
    var m := ps[i].(purchasePrice := AveragePrice(ps[i].purchasePrice, ps[i].quantity, price, quantity),
                    quantity := ps[i].quantity + quantity);
    BuyShape(ps, symbol, quantity, price, date, i, m);
    GrowValue(ps, i, m, symbol, quantity, value);
  }

  lemma BuyShape(ps: seq<Position>, symbol: string, quantity: real, price: real, date: int, i: nat, m: Position)
    requires AllPositive(ps) && quantity > 0.0 && FirstIndex(ps, symbol) == Some(i)
    requires m == ps[i].(purchasePrice := AveragePrice(ps[i].purchasePrice, ps[i].quantity, price, quantity),
                         quantity := ps[i].quantity + quantity)
    ensures ApplyBuy(ps, symbol, quantity, price, date) == ps[i := m]
  {
  }

  lemma BuyValueNew(ps: seq<Position>, symbol: string, quantity: real, price: real, date: int, value: string -> real)
    requires AllPositive(ps) && quantity > 0.0 && FirstIndex(ps, symbol).None?
    ensures MarketValue(ApplyBuy(ps, symbol, quantity, price, date), value) == MarketValue(ps, value) + value(symbol) * quantity
  {
    assert ApplyBuy(ps, symbol, quantity, price, date) == ps + [Position(symbol, quantity, price, date)];
    AppendValue(ps, Position(symbol, quantity, price, date), value);
  }

  /** Appending a position adds its worth to the book's value. */
  lemma AppendValue(ps: seq<Position>, p: Position, value: string -> real)
    ensures MarketValue(ps + [p], value) == MarketValue(ps, value) + value(p.symbol) * p.quantity
  {
    assert (ps + [p])[..|ps|] == ps;
  }

  /** Growing the position at `i` by `q` adds its symbol's price times `q` to the book's value. */
  lemma GrowValue(ps: seq<Position>, i: nat, m: Position, symbol: string, q: real, value: string -> real)
    requires i < |ps| && m.symbol == symbol && ps[i].symbol == symbol && m.quantity == ps[i].quantity + q
    ensures MarketValue(ps[i := m], value) == MarketValue(ps, value) + value(symbol) * q
  {
    MarketValueAt(ps, i, m, value);
    WorthShift(value, ps[i], m, q);
  }

  /** Adding `q` to a position's quantity adds its symbol's price times `q` to its worth. */
  lemma WorthShift(price: string -> real, p: Position, p': Position, q: real)
    requires p'.symbol == p.symbol && p'.quantity == p.quantity + q
    ensures Worth(price, p') == Worth(price, p) + price(p.symbol) * q
  {
    Distributes(price(p.symbol), p.quantity, q);
  }

  /**
   * A sell of at most what is owned removes the sold quantity, valued at `value`, from the book's
   * market value at `value`.
   */
  lemma {:induction false} LiquidateValue(ps: seq<Position>, symbol: string, remaining: real, value: string -> real)
    requires 0.0 <= remaining <= SymbolTotal(ps, symbol)
    ensures MarketValue(Liquidate(ps, symbol, remaining), value) == MarketValue(ps, value) - value(symbol) * remaining
  {
    if ps == [] {
      assert remaining == 0.0;
    } else if ps[0].symbol != symbol {
      LiquidateValue(ps[1..], symbol, remaining, value);
      LiquidateValueSkip(ps, symbol, remaining, value);
    } else if ps[0].quantity > remaining {
      LiquidateValueReduce(ps, symbol, remaining, value);
    } else {
      var left := remaining - ps[0].quantity;
      LiquidateValue(ps[1..], symbol, left, value);
      MarketValueCons(ps, value);
      LiquidateValueSplice(value, ps[0], symbol, MarketValue(ps, value), MarketValue(ps[1..], value),
                           MarketValue(Liquidate(ps[1..], symbol, left), value), left, remaining);
    }
  }

  /** The market value of a non-empty book is its first position's worth plus the rest's. */
  lemma MarketValueCons(ps: seq<Position>, value: string -> real)
    requires ps != []
    ensures MarketValue(ps, value) == Worth(value, ps[0]) + MarketValue(ps[1..], value)
  {
    assert ps == [ps[0]] + ps[1..];
    MarketValueConcat([ps[0]], ps[1..], value);
    assert [ps[0]][..0] == [];
  }

  lemma LiquidateValueSkip(ps: seq<Position>, symbol: string, remaining: real, value: string -> real)
    requires ps != [] && ps[0].symbol != symbol
    requires MarketValue(Liquidate(ps[1..], symbol, remaining), value)
      == MarketValue(ps[1..], value) - value(symbol) * remaining
    ensures MarketValue(Liquidate(ps, symbol, remaining), value) == MarketValue(ps, value) - value(symbol) * remaining
  {
    var sold := Liquidate(ps[1..], symbol, remaining);
    MarketValueCons(ps, value);
    assert ([ps[0]] + sold)[1..] == sold;
    MarketValueCons([ps[0]] + sold, value);
  }

  lemma LiquidateValueReduce(ps: seq<Position>, symbol: string, remaining: real, value: string -> real)
    requires ps != [] && ps[0].symbol == symbol && ps[0].quantity > remaining
    ensures MarketValue(Liquidate(ps, symbol, remaining), value) == MarketValue(ps, value) - value(symbol) * remaining
  {
    var m := ps[0].(quantity := ps[0].quantity - remaining);
    MarketValueCons(ps, value);
    assert ([m] + ps[1..])[1..] == ps[1..];
    MarketValueCons([m] + ps[1..], value);
    WorthShift(value, m, ps[0], remaining);
  }

  /** Splicing out a whole lot of `symbol`: its worth leaves the book's value with the quantity it covered. */
  lemma LiquidateValueSplice(value: string -> real, head: Position, symbol: string, all: real, rest: real, sold: real,
                             left: real, remaining: real)
    requires head.symbol == symbol && left == remaining - head.quantity
    requires all == Worth(value, head) + rest
    requires sold == rest - value(symbol) * left
    ensures sold == all - value(symbol) * remaining
  {
    Distributes(value(symbol), left, head.quantity);
  }

  lemma SymbolsOfSnoc(ps: seq<Position>)
    requires ps != []
    ensures SymbolsOf(ps) == SymbolsOf(ps[..|ps| - 1]) + {ps[|ps| - 1].symbol}
  {
    var init := ps[..|ps| - 1];
    forall s | s in SymbolsOf(ps) ensures s in SymbolsOf(init) + {ps[|ps| - 1].symbol} {
      var k :| 0 <= k < |ps| && ps[k].symbol == s;
      if k < |ps| - 1 { assert init[k].symbol == s; }
    }
    forall s | s in SymbolsOf(init) ensures s in SymbolsOf(ps) {
      var k :| 0 <= k < |init| && init[k].symbol == s;
      assert ps[k].symbol == s;
    }
  }

  /** The distinct symbols of a book in order of first appearance (the key order of a JavaScript object). */
  function UniqueSymbols(ps: seq<Position>): (r: seq<string>)
    ensures Seqs.Distinct(r)
    ensures forall s :: s in r <==> s in SymbolsOf(ps)
  {
    if ps == [] then []
    else
      var d := UniqueSymbols(ps[..|ps| - 1]);
      SymbolsOfSnoc(ps);
      if ps[|ps| - 1].symbol in d then d else d + [ps[|ps| - 1].symbol]
  }

  /** Sum over `keys` of the key's price times the book's total quantity in it. */
  function DedupedValue(keys: seq<string>, price: string -> real, ps: seq<Position>): real
  {
    if keys == [] then 0.0
    else DedupedValue(keys[..|keys| - 1], price, ps) + PricedTotal(ps, price, keys[|keys| - 1])
  }

  /** The price of `symbol` times the book's aggregate quantity in it. */
  function PricedTotal(ps: seq<Position>, price: string -> real, symbol: string): real
  {
    price(symbol) * SymbolTotal(ps, symbol)
  }

  /** The worth of the positions in `symbol`, summed position by position. */
  function SymbolWorth(ps: seq<Position>, price: string -> real, symbol: string): real
  {
    if ps == [] then 0.0
    else WorthShare(price, ps[0], symbol) + SymbolWorth(ps[1..], price, symbol)
  }

  /** What `p` contributes to the worth of `symbol`: its worth if it is in `symbol`, else nothing. */
  function WorthShare(price: string -> real, p: Position, symbol: string): real
  {
    if p.symbol == symbol then Worth(price, p) else 0.0
  }

  /** What `p` contributes to the total quantity of `symbol`. */
  function Share(p: Position, symbol: string): real
  {
    if p.symbol == symbol then p.quantity else 0.0
  }

  lemma {:induction false} SymbolWorthConcat(a: seq<Position>, b: seq<Position>, price: string -> real, symbol: string)
    ensures SymbolWorth(a + b, price, symbol) == SymbolWorth(a, price, symbol) + SymbolWorth(b, price, symbol)
  {
    if a == [] {
      assert a + b == b;
    } else {
      assert (a + b)[1..] == a[1..] + b;
      SymbolWorthConcat(a[1..], b, price, symbol);
    }
  }

  /** Appending one position adds its share to the worth of `symbol`. */
  lemma SymbolWorthSnoc(init: seq<Position>, p: Position, price: string -> real, symbol: string)
    ensures SymbolWorth(init + [p], price, symbol) == SymbolWorth(init, price, symbol) + WorthShare(price, p, symbol)
  {
    SymbolWorthConcat(init, [p], price, symbol);
    assert [p][1..] == [];
  }

  /** Pricing a symbol's aggregate quantity gives the sum of its positions' worths. */
  lemma SymbolWorthIsPricedTotal(ps: seq<Position>, price: string -> real, symbol: string)
    ensures SymbolWorth(ps, price, symbol) == PricedTotal(ps, price, symbol)
  {
    ScaledTotal(ps, price, symbol, price(symbol));
  }

  lemma {:induction false} ScaledTotal(ps: seq<Position>, price: string -> real, symbol: string, x: real)
    requires x == price(symbol)
    ensures SymbolWorth(ps, price, symbol) == x * SymbolTotal(ps, symbol)
  {
    if ps != [] {
      ScaledTotal(ps[1..], price, symbol, x);
      ShareScaled(price, ps[0], symbol, x);
      assert SymbolTotal(ps, symbol) == Share(ps[0], symbol) + SymbolTotal(ps[1..], symbol);
      ScaledStep(SymbolWorth(ps[1..], price, symbol), SymbolWorth(ps, price, symbol),
                 SymbolTotal(ps[1..], symbol), SymbolTotal(ps, symbol), x,
                 Share(ps[0], symbol), WorthShare(price, ps[0], symbol));
    }
  }

  lemma ShareScaled(price: string -> real, p: Position, symbol: string, x: real)
    requires x == price(symbol)
    ensures WorthShare(price, p, symbol) == x * Share(p, symbol)
  {
  }

  /** One position more: scaling the running total by `x` keeps matching the running worth. */
  lemma ScaledStep(w0: real, w: real, t0: real, t: real, x: real, s: real, ws: real)
    requires w0 == x * t0
    requires w == ws + w0
    requires t == s + t0
    requires ws == x * s
    ensures w == x * t
  {
    Distributes(x, s, t0);
  }

  lemma Distributes(x: real, a: real, b: real)
    ensures x * (a + b) == x * a + x * b
  {
  }

  /** Sum over `keys` of each key's position-by-position worth. */
  function WorthByKeys(keys: seq<string>, price: string -> real, ps: seq<Position>): real
  {
    if keys == [] then 0.0
    else WorthByKeys(keys[..|keys| - 1], price, ps) + SymbolWorth(ps, price, keys[|keys| - 1])
  }

  lemma {:induction false} DedupedValueIsWorthByKeys(keys: seq<string>, price: string -> real, ps: seq<Position>)
    ensures DedupedValue(keys, price, ps) == WorthByKeys(keys, price, ps)
  {
    if keys != [] {
      DedupedValueIsWorthByKeys(keys[..|keys| - 1], price, ps);
      SymbolWorthIsPricedTotal(ps, price, keys[|keys| - 1]);
    }
  }

  lemma {:induction false} WorthByKeysSnoc(keys: seq<string>, price: string -> real, init: seq<Position>, p: Position)
    requires Seqs.Distinct(keys)
    ensures WorthByKeys(keys, price, init + [p])
         == WorthByKeys(keys, price, init) + (if p.symbol in keys then Worth(price, p) else 0.0)
  {
    if keys != [] {
      var front := keys[..|keys| - 1];
      var k := keys[|keys| - 1];
      assert keys == front + [k];
      assert (init + [p])[..|init + [p]| - 1] == init;
      assert Seqs.Distinct(front);
      WorthByKeysSnoc(front, price, init, p);
      SymbolWorthSnoc(init, p, price, k);
    }
  }

  lemma {:induction false} SymbolWorthAbsent(ps: seq<Position>, price: string -> real, symbol: string)
    requires symbol !in SymbolsOf(ps)
    ensures SymbolWorth(ps, price, symbol) == 0.0
  {
    if ps != [] {
      assert ps[0].symbol in SymbolsOf(ps);
      assert SymbolsOf(ps[1..]) <= SymbolsOf(ps) by {
        forall s | s in SymbolsOf(ps[1..]) ensures s in SymbolsOf(ps) {
          var k :| 0 <= k < |ps[1..]| && ps[1..][k].symbol == s;
          assert ps[k + 1].symbol == s;
        }
      }
      SymbolWorthAbsent(ps[1..], price, symbol);
    }
  }

  /**
   * Valuing the deduplicated book (each distinct symbol once, at its aggregate quantity) gives
   * the same sum as valuing each position on its own.
   */
  lemma DedupedValueIsMarketValue(ps: seq<Position>, price: string -> real)
    ensures DedupedValue(UniqueSymbols(ps), price, ps) == MarketValue(ps, price)
  {
    DedupedValueIsWorthByKeys(UniqueSymbols(ps), price, ps);
    WorthByKeysIsMarketValue(ps, price);
  }

  lemma {:induction false} WorthByKeysIsMarketValue(ps: seq<Position>, price: string -> real)
    ensures WorthByKeys(UniqueSymbols(ps), price, ps) == MarketValue(ps, price)
  {
    if ps != [] {
      var init := ps[..|ps| - 1];
      var p := ps[|ps| - 1];
      assert ps == init + [p];
      var d := UniqueSymbols(init);
      WorthByKeysIsMarketValue(init, price);
      WorthByKeysSnoc(d, price, init, p);
      if p.symbol !in d {
        var keys := d + [p.symbol];
        assert keys[..|keys| - 1] == d;
        SymbolWorthAbsent(init, price, p.symbol);
        SymbolWorthSnoc(init, p, price, p.symbol);
      }
    }
  }
}
