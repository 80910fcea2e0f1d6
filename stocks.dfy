/**
 * Order execution: the liquidity gate, the two buy modes (fee inside the amount, or fee on top
 * of price times quantity), the ownership check and first-position-first liquidation of a sell,
 * and the quote-type filter of search. Buys and sells change the user record in place.
 */
module Stocks {
  import opened Wrappers
  import opened PositionBook
  import opened Accounts
  import Requests
  import Leaderboard
  import Seqs

  /** The defaults of the three environment settings. */
  const CryptoMinimumDailyVolume: real := 1000000.0
  const MinimumDailyVolume: real := 100000.0
  const TradeFee: real := 0.001

  datatype Rejection = CryptoIlliquid | Illiquid | NoVolume | InsufficientFunds | InsufficientShares

  /** The answer of a buy or sell request: done, rejected with status 400, or a failed quote fetch. */
  datatype Outcome = Done | Rejected(reason: Rejection) | Failed(error: Requests.FetchError)

  /**
   * The liquidity gate a buy passes before the user is even loaded. A missing volume passes both
   * comparisons (they are false on `undefined`) and is caught by the final truthiness test.
   */
  function LiquidityGate(quoteType: Option<string>, volume: Option<real>): (r: Option<Rejection>)
    ensures r.None? <==> (volume.Some? && volume.value >= MinimumDailyVolume
      && (quoteType == Some("CRYPTOCURRENCY") ==> volume.value >= CryptoMinimumDailyVolume))
    ensures r == Some(CryptoIlliquid) <==>
      quoteType == Some("CRYPTOCURRENCY") && volume.Some? && volume.value < CryptoMinimumDailyVolume
    ensures volume.None? ==> r == Some(NoVolume)
  {
    match volume
    case None => Some(NoVolume)
    case Some(v) =>
      if quoteType == Some("CRYPTOCURRENCY") && v < CryptoMinimumDailyVolume then Some(CryptoIlliquid)
      else if v < MinimumDailyVolume then Some(Illiquid)
      else if v == 0.0 then Some(NoVolume)
      else None
  }

  /** `amount && amount > 0`: the buy spends a fixed amount, fee included. */
  predicate AmountMode(amount: Option<real>)
  {
    amount.Some? && amount.value > 0.0
  }

  function AmountFee(amount: real, fee: real): real
  {
    amount * fee
  }

  /** The quantity an amount buys once the fee is taken out of it. */
  function AmountQuantity(amount: real, price: real, fee: real): real
    requires price != 0.0
  {
    (amount - AmountFee(amount, fee)) / price
  }

  /** `price * quantity`: what a quantity-mode buy costs before its fee. */
  function QuantityCost(price: real, quantity: real): real
  {
    price * quantity
  }

  function QuantityFee(price: real, quantity: real, fee: real): real
  {
    QuantityCost(price, quantity) * fee
  }

  /** What a sell credits: the proceeds less the fee on them. */
  function SellProceeds(price: real, quantity: real, fee: real): real
  {
    QuantityCost(price, quantity) - QuantityCost(price, quantity) * fee
  }

  /** In amount mode the shares credited, valued at the execution price, plus the fee make up the amount. */
  lemma AmountModeConserves(amount: real, price: real, fee: real)
    requires price != 0.0
    ensures AmountQuantity(amount, price, fee) * price + AmountFee(amount, fee) == amount
  {
    DivTimes(amount - AmountFee(amount, fee), price);
  }

  /** A positive amount at a positive price buys a positive quantity when the fee is below 100%. */
  lemma AmountQuantityPositive(amount: real, price: real, fee: real)
    requires amount > 0.0 && price > 0.0 && fee < 1.0
    ensures AmountQuantity(amount, price, fee) > 0.0
  {
    var net := amount - AmountFee(amount, fee);
    assert net > 0.0 by {
      PositiveScaled(amount, 1.0 - fee);
      assert net == amount * (1.0 - fee);
    }
    PositiveQuotient(net, price);
  }

  lemma PositiveScaled(x: real, y: real)
    requires x > 0.0 && y > 0.0
    ensures x * y > 0.0
  {
  }

  lemma PositiveQuotient(x: real, y: real)
    requires x > 0.0 && y > 0.0
    ensures x / y > 0.0
  {
  }

  /**
   * The quantity-mode funds test `cash < price*q + price*q*fee` is the test against
   * `price * q * (1 + fee)`.
   */
  lemma QuantityModeCharge(price: real, quantity: real, fee: real)
    ensures QuantityCost(price, quantity) + QuantityFee(price, quantity, fee) == price * quantity * (1.0 + fee)
  {
  }

  /**
   * Buying `q` shares by quantity and selling them again at the same price costs exactly twice
   * the fee on `price * q`.
   */
  lemma RoundTripCost(cash: real, price: real, quantity: real, fee: real)
    ensures cash - (QuantityCost(price, quantity) + QuantityFee(price, quantity, fee)) + SellProceeds(price, quantity, fee)
         == cash - 2.0 * QuantityFee(price, quantity, fee)
  {
  }

  /**
   * Buying a symbol not held and selling the same quantity again gives back the original book:
   * the appended position is the only lot and it is removed whole.
   */
  lemma BuyThenSellRestores(ps: seq<Position>, symbol: string, quantity: real, price: real, date: int)
    requires AllPositive(ps) && quantity > 0.0 && symbol !in SymbolsOf(ps)
    ensures Liquidate(ApplyBuy(ps, symbol, quantity, price, date), symbol, quantity) == ps
  {
    BuyNewSymbol(ps, symbol, quantity, price, date);
    LiquidateElsewhere(ps, Position(symbol, quantity, price, date), symbol, quantity);
  }

  /** Liquidation passes over a prefix that does not hold the symbol. */
  lemma {:induction false} LiquidateElsewhere(ps: seq<Position>, p: Position, symbol: string, remaining: real)
    requires symbol !in SymbolsOf(ps)
    requires p.symbol == symbol && p.quantity == remaining
    ensures Liquidate(ps + [p], symbol, remaining) == ps
  {
    if ps == [] {
      assert ps + [p] == [p];
      assert [p][1..] == [];
    } else {
      assert ps[0].symbol in SymbolsOf(ps);
      assert (ps + [p])[1..] == ps[1..] + [p];
      assert SymbolsOf(ps[1..]) <= SymbolsOf(ps) by {
        forall s | s in SymbolsOf(ps[1..]) ensures s in SymbolsOf(ps) {
          var k :| 0 <= k < |ps[1..]| && ps[1..][k].symbol == s;
          assert ps[k + 1].symbol == s;
        }
      }
      LiquidateElsewhere(ps[1..], p, symbol, remaining);
      assert [ps[0]] + ps[1..] == ps;
    }
  }

  /** The `forEach` that adds up the quantities of every position in `symbol`. */
  method QuantityOwned(positions: seq<Position>, symbol: string) returns (owned: real)
    ensures owned == SymbolTotal(positions, symbol)
  {
    owned := 0.0;
    var i := 0;
    while i < |positions|
      invariant 0 <= i <= |positions|
      invariant owned == SymbolTotal(positions[..i], symbol)
    {
      SymbolTotalSnoc(positions, i, symbol);
      if positions[i].symbol == symbol {
        owned := owned + positions[i].quantity;
      }
      i := i + 1;
    }
    assert positions[..i] == positions;
  }

  /**
   * The update of a buy once the gate and the funds test have passed: debit, one ledger entry,
   * and the merge into the first position in the symbol or a new position.
   */
  method ExecuteBuy(user: User, symbol: string, price: real, quantity: real, fee: real, debit: real, now: int)
    requires user.Valid() && quantity > 0.0
    modifies user
    ensures user.Valid()
    ensures user.cash == old(user.cash) - debit
    ensures user.ledger == old(user.ledger) + [Transaction(symbol, price, quantity, fee, Buy, now)]
    ensures user.positions == ApplyBuy(old(user.positions), symbol, quantity, price, now)
    ensures user.username == old(user.username) && user.watchlist == old(user.watchlist)
    ensures forall value: string -> real ::
              Leaderboard.Total(user.Snapshot(), value) == Leaderboard.Total(old(user.Snapshot()), value) - debit + value(symbol) * quantity
  {
    ghost var before := user.Snapshot();
    user.cash := user.cash - debit;
    user.ledger := user.ledger + [Transaction(symbol, price, quantity, fee, Buy, now)];
    var existing := FirstIndex(user.positions, symbol);
    if existing.Some? {
      var i := existing.value;
      var p := user.positions[i];
      var averaged := AveragePrice(p.purchasePrice, p.quantity, price, quantity);
      user.positions := user.positions[i := p.(purchasePrice := averaged, quantity := p.quantity + quantity)];
    } else {
      user.positions := user.positions + [Position(symbol, quantity, price, now)];
    }
    forall value: string -> real ensures Leaderboard.Total(user.Snapshot(), value)
      == Leaderboard.Total(before, value) - debit + value(symbol) * quantity
    {
      BuyTotal(before, symbol, quantity, price, debit, now, value);
    }
  }

  /**
   * A buy moves `debit` out of the user's cash and adds the bought quantity, valued at whatever
   * prices the leaderboard uses, to the holdings.
   */
  lemma BuyTotal(h: Holder, symbol: string, quantity: real, price: real, debit: real, now: int, value: string -> real)
    requires AllPositive(h.positions) && quantity > 0.0
    ensures Leaderboard.Total(Holder(h.username, ApplyBuy(h.positions, symbol, quantity, price, now), h.cash - debit), value)
         == Leaderboard.Total(h, value) - debit + value(symbol) * quantity
  {
    BuyValue(h.positions, symbol, quantity, price, now, value);
  }

  /**
   * `buyStock`. The quote is fetched through the shared cache; a failed fetch answers 500 and a
   * failed gate 400, in both cases before the user record is touched.
   */
  method BuyStock(user: User, stocks: Requests.StockCache, symbol: string, quantity: real, amount: Option<real>,
                  provider: string -> Requests.QuoteResponse, now: int)
    returns (outcome: Outcome)
    requires user.Valid() && stocks.Valid()
    requires Requests.Lookup(stocks.entries, now, symbol, provider).Success? ==>
      Requests.Lookup(stocks.entries, now, symbol, provider).value.price > 0.0
    requires !AmountMode(amount) ==> quantity > 0.0
    modifies user, stocks
    ensures stocks.Valid() && stocks.entries == Requests.AfterFetch(old(stocks.entries), now, symbol, provider)
    ensures user.Valid()
    ensures user.username == old(user.username) && user.watchlist == old(user.watchlist)
    ensures outcome != Done ==>
      user.cash == old(user.cash) && user.positions == old(user.positions) && user.ledger == old(user.ledger)
    ensures Requests.Lookup(old(stocks.entries), now, symbol, provider).Failure? ==>
      outcome == Failed(Requests.Lookup(old(stocks.entries), now, symbol, provider).error)
    ensures Requests.Lookup(old(stocks.entries), now, symbol, provider).Success? ==>
      var quote := Requests.Lookup(old(stocks.entries), now, symbol, provider).value;
      var gate := LiquidityGate(quote.quoteType, quote.averageDailyVolume10Day);
      (gate.Some? ==> outcome == Rejected(gate.value)) &&
      (gate.None? && AmountMode(amount) ==>
        var q := AmountQuantity(amount.value, quote.price, TradeFee);
        (old(user.cash) < amount.value ==> outcome == Rejected(InsufficientFunds)) &&
        (old(user.cash) >= amount.value ==>
          outcome == Done && q > 0.0 &&
          user.cash == old(user.cash) - amount.value &&
          user.ledger == old(user.ledger) + [Transaction(symbol, quote.price, q, AmountFee(amount.value, TradeFee), Buy, now)] &&
          user.positions == ApplyBuy(old(user.positions), symbol, q, quote.price, now))) &&
      (gate.None? && !AmountMode(amount) ==>
        var cost := QuantityCost(quote.price, quantity);
        var fee := QuantityFee(quote.price, quantity, TradeFee);
        (old(user.cash) < cost + fee ==> outcome == Rejected(InsufficientFunds)) &&
        (old(user.cash) >= cost + fee ==>
          outcome == Done &&
          user.cash == old(user.cash) - (cost + fee) &&
          user.ledger == old(user.ledger) + [Transaction(symbol, quote.price, quantity, fee, Buy, now)] &&
          user.positions == ApplyBuy(old(user.positions), symbol, quantity, quote.price, now)))
  {
    var data, _ := stocks.FetchStockData(symbol, provider, now);
    if data.Failure? {
      return Failed(data.error);
    }
    var price := data.value.price;
    var gate := LiquidityGate(data.value.quoteType, data.value.averageDailyVolume10Day);
    if gate.Some? {
      return Rejected(gate.value);
    }
    if AmountMode(amount) {
      var feeAmount := AmountFee(amount.value, TradeFee);
      var quantityFromAmount := AmountQuantity(amount.value, price, TradeFee);
      if user.cash < amount.value {
        return Rejected(InsufficientFunds);
      }
      AmountQuantityPositive(amount.value, price, TradeFee);
      ExecuteBuy(user, symbol, price, quantityFromAmount, feeAmount, amount.value, now);
    } else {
      var buyAmount := QuantityCost(price, quantity);
      var feeAmount := QuantityFee(price, quantity, TradeFee);
      if user.cash < buyAmount + feeAmount {
        return Rejected(InsufficientFunds);
      }
      ExecuteBuy(user, symbol, price, quantity, feeAmount, buyAmount + feeAmount, now);
    }
    outcome := Done;
  }

  /**
   * The liquidation loop of a sell: positions in `symbol` are visited in list order; one holding
   * more than what is left is reduced and the loop stops; any other is spliced out and its
   * quantity deducted, and the index steps back so the next position is not skipped.
   */
  method SellFromPositions(user: User, symbol: string, quantity: real)
    requires user.Valid() && quantity >= 0.0
    modifies user
    ensures user.Valid()
    ensures user.positions == Liquidate(old(user.positions), symbol, quantity)
    ensures user.cash == old(user.cash) && user.ledger == old(user.ledger)
    ensures user.username == old(user.username) && user.watchlist == old(user.watchlist)
  {
    ghost var start := user.positions;
    var remaining := quantity;
    var i := 0;
    assert user.positions[i..] == user.positions;
    while i < |user.positions|
      invariant 0 <= i <= |user.positions|
      invariant remaining >= 0.0
      invariant user.positions[..i] + Liquidate(user.positions[i..], symbol, remaining) == Liquidate(start, symbol, quantity)
      invariant AllPositive(user.positions)
      invariant user.cash == old(user.cash) && user.ledger == old(user.ledger)
      invariant user.username == old(user.username) && user.watchlist == old(user.watchlist)
      decreases |user.positions| - i
    {
      var ps := user.positions;
      if ps[i].symbol == symbol {
        if ps[i].quantity > remaining {
          user.positions := ps[i := ps[i].(quantity := ps[i].quantity - remaining)];
          ReduceStep(ps, i, symbol, remaining, Liquidate(start, symbol, quantity));
          return;
        } else {
          SpliceStep(ps, i, symbol, remaining, Liquidate(start, symbol, quantity));
          remaining := remaining - ps[i].quantity;
          user.positions := ps[..i] + ps[i + 1..];
          // `i--` here and the loop's `i++` leave the index where it was.
        }
      } else {
        SkipStep(ps, i, symbol, remaining, Liquidate(start, symbol, quantity));
        i := i + 1;
      }
    }
    DoneStep(user.positions, symbol, remaining, Liquidate(start, symbol, quantity));
  }

  /** Liquidation of the suffix from `i` on, unfolded once. */
  lemma LiquidateAt(ps: seq<Position>, i: nat, symbol: string, remaining: real)
    requires i < |ps|
    ensures Liquidate(ps[i..], symbol, remaining) ==
      if ps[i].symbol != symbol then [ps[i]] + Liquidate(ps[i + 1..], symbol, remaining)
      else if ps[i].quantity > remaining then [ps[i].(quantity := ps[i].quantity - remaining)] + ps[i + 1..]
      else Liquidate(ps[i + 1..], symbol, remaining - ps[i].quantity)
  {
    assert ps[i..][0] == ps[i];
    assert ps[i..][1..] == ps[i + 1..];
  }

  /** A position in another symbol is kept: the scanned prefix grows by it. */
  lemma SkipStep(ps: seq<Position>, i: nat, symbol: string, remaining: real, target: seq<Position>)
    requires i < |ps| && ps[i].symbol != symbol
    requires ps[..i] + Liquidate(ps[i..], symbol, remaining) == target
    ensures ps[..i + 1] + Liquidate(ps[i + 1..], symbol, remaining) == target
  {
    LiquidateAt(ps, i, symbol, remaining);
    assert ps[..i + 1] == ps[..i] + [ps[i]];
  }

  /** A position holding more than what is left is reduced by it, which finishes the liquidation. */
  lemma ReduceStep(ps: seq<Position>, i: nat, symbol: string, remaining: real, target: seq<Position>)
    requires AllPositive(ps) && i < |ps| && ps[i].symbol == symbol && ps[i].quantity > remaining
    requires ps[..i] + Liquidate(ps[i..], symbol, remaining) == target
    ensures AllPositive(ps[i := ps[i].(quantity := ps[i].quantity - remaining)])
    ensures ps[i := ps[i].(quantity := ps[i].quantity - remaining)] == target
  {
    LiquidateAt(ps, i, symbol, remaining);
    var r := ps[i := ps[i].(quantity := ps[i].quantity - remaining)];
    assert r == ps[..i] + [r[i]] + ps[i + 1..];
  }

  /** A position holding at most what is left is spliced out and its quantity deducted. */
  lemma SpliceStep(ps: seq<Position>, i: nat, symbol: string, remaining: real, target: seq<Position>)
    requires AllPositive(ps) && i < |ps| && ps[i].symbol == symbol && ps[i].quantity <= remaining
    requires ps[..i] + Liquidate(ps[i..], symbol, remaining) == target
    ensures AllPositive(ps[..i] + ps[i + 1..])
    ensures |ps[..i] + ps[i + 1..]| == |ps| - 1
    ensures (ps[..i] + ps[i + 1..])[..i] + Liquidate((ps[..i] + ps[i + 1..])[i..], symbol, remaining - ps[i].quantity) == target
  {
    LiquidateAt(ps, i, symbol, remaining);
    var r := ps[..i] + ps[i + 1..];
    assert r[..i] == ps[..i] && r[i..] == ps[i + 1..];
    forall k | 0 <= k < |r| ensures r[k].quantity > 0.0 {
      if k < i { assert r[k] == ps[k]; } else { assert r[k] == ps[k + 1]; }
    }
  }

  /** Once the scan reaches the end, the book is the liquidated one. */
  lemma DoneStep(ps: seq<Position>, symbol: string, remaining: real, target: seq<Position>)
    requires ps[..|ps|] + Liquidate(ps[|ps|..], symbol, remaining) == target
    ensures ps == target
  {
    assert ps[|ps|..] == [];
    assert ps[..|ps|] == ps;
  }

  /**
   * `sellStock`. The ownership test adds up every position in the symbol; the ledger entry is
   * built before the loop and records the requested quantity.
   */
  method SellStock(user: User, stocks: Requests.StockCache, symbol: string, quantity: real,
                   provider: string -> Requests.QuoteResponse, now: int)
    returns (outcome: Outcome)
    requires user.Valid() && stocks.Valid() && quantity > 0.0
    modifies user, stocks
    ensures stocks.Valid() && stocks.entries == Requests.AfterFetch(old(stocks.entries), now, symbol, provider)
    ensures user.Valid()
    ensures user.username == old(user.username) && user.watchlist == old(user.watchlist)
    ensures outcome != Done ==>
      user.cash == old(user.cash) && user.positions == old(user.positions) && user.ledger == old(user.ledger)
    ensures Requests.Lookup(old(stocks.entries), now, symbol, provider).Failure? ==>
      outcome == Failed(Requests.Lookup(old(stocks.entries), now, symbol, provider).error)
    ensures Requests.Lookup(old(stocks.entries), now, symbol, provider).Success? ==>
      var price := Requests.Lookup(old(stocks.entries), now, symbol, provider).value.price;
      (SymbolTotal(old(user.positions), symbol) < quantity ==> outcome == Rejected(InsufficientShares)) &&
      (SymbolTotal(old(user.positions), symbol) >= quantity ==>
        outcome == Done &&
        user.cash == old(user.cash) + SellProceeds(price, quantity, TradeFee) &&
        user.ledger == old(user.ledger) + [Transaction(symbol, price, quantity, QuantityFee(price, quantity, TradeFee), Sell, now)] &&
        user.positions == Liquidate(old(user.positions), symbol, quantity) &&
        forall value: string -> real ::
          Leaderboard.Total(user.Snapshot(), value) ==
          Leaderboard.Total(old(user.Snapshot()), value) + SellProceeds(price, quantity, TradeFee) - value(symbol) * quantity)
  {
    ghost var before := user.Snapshot();
    var data, _ := stocks.FetchStockData(symbol, provider, now);
    if data.Failure? {
      return Failed(data.error);
    }
    var price := data.value.price;
    var owned := QuantityOwned(user.positions, symbol);
    if owned < quantity {
      return Rejected(InsufficientShares);
    }
    var sellAmount := QuantityCost(price, quantity);
    var sellFee := QuantityFee(price, quantity, TradeFee);
    user.cash := user.cash + (sellAmount - sellFee);
    user.ledger := user.ledger + [Transaction(symbol, price, quantity, sellFee, Sell, now)];
    SellFromPositions(user, symbol, quantity);
    forall value: string -> real ensures Leaderboard.Total(user.Snapshot(), value)
      == Leaderboard.Total(before, value) + SellProceeds(price, quantity, TradeFee) - value(symbol) * quantity
    {
      SellTotal(before, symbol, quantity, SellProceeds(price, quantity, TradeFee), value);
    }
    outcome := Done;
  }

  /**
   * A sell of at most what is owned adds the proceeds to the cash and takes the sold quantity,
   * valued at whatever prices the leaderboard uses, out of the holdings.
   */
  lemma SellTotal(h: Holder, symbol: string, quantity: real, proceeds: real, value: string -> real)
    requires 0.0 <= quantity <= SymbolTotal(h.positions, symbol)
    ensures Leaderboard.Total(Holder(h.username, Liquidate(h.positions, symbol, quantity), h.cash + proceeds), value)
         == Leaderboard.Total(h, value) + proceeds - value(symbol) * quantity
  {
    LiquidateValue(h.positions, symbol, quantity, value);
  }

  /** A successful sell lowers the symbol's holding by exactly the quantity sold and touches no other symbol. */
  lemma SellAccounting(ps: seq<Position>, symbol: string, quantity: real)
    requires AllPositive(ps) && 0.0 < quantity <= SymbolTotal(ps, symbol)
    ensures SymbolTotal(Liquidate(ps, symbol, quantity), symbol) == SymbolTotal(ps, symbol) - quantity
    ensures WithoutSymbol(Liquidate(ps, symbol, quantity), symbol) == WithoutSymbol(ps, symbol)
    ensures AllPositive(Liquidate(ps, symbol, quantity))
  {
    LiquidateTotal(ps, symbol, quantity);
    LiquidateKeepsOthers(ps, symbol, quantity);
    LiquidateKeepsPositive(ps, symbol, quantity);
  }

  // ---------------------------------------------------------------- search

  /** A truthy `quoteType` that is neither `"FUTURE"` nor `"Option"`. */
  predicate Tradable(q: Requests.SearchQuote)
  {
    q.quoteType.Some? && q.quoteType.value != "" && q.quoteType.value != "FUTURE" && q.quoteType.value != "Option"
  }

  /** The filter `search` applies to what `searchStocks` returned. */
  function SearchFilter(quotes: seq<Requests.SearchQuote>): (r: seq<Requests.SearchQuote>)
    ensures forall q :: q in r <==> q in quotes && Tradable(q)
    ensures |r| <= |quotes|
  {
    Seqs.Filter(quotes, Tradable)
  }

  /** The filter keeps order: filtering a concatenation concatenates the filtered parts. */
  lemma SearchFilterKeepsOrder(a: seq<Requests.SearchQuote>, b: seq<Requests.SearchQuote>)
    ensures SearchFilter(a + b) == SearchFilter(a) + SearchFilter(b)
  {
    Seqs.FilterConcat(a, b, Tradable);
  }

  /** `search`: the tradable quotes of a search that succeeded, possibly only partially. */
  function Search(response: Requests.SearchResponse): (r: Result<seq<Requests.SearchQuote>, string>)
    ensures r.Failure? <==> Requests.SearchStocks(response).Failure?
    ensures r.Success? ==> r.value == SearchFilter(Requests.SearchStocks(response).value)
  {
    match Requests.SearchStocks(response)
    case Success(quotes) => Success(SearchFilter(quotes))
    case Failure(e) => Failure(e)
  }
}
