/**
 * The trade preview of the transaction pane: estimated shares, gross amount, fee, net amount and
 * the two button-disable rules, as pure functions of the form's state, and how they line up with
 * the server's order checks.
 */
module TradePreview {
  import opened Wrappers
  import opened PositionBook
  import Stocks

  /** The floor `1e-12` of the by-value sell denominator `Math.max(1 - tradeFee, 1e-12)`. */
  const DenominatorFloor: real := 0.000000000001

  function Max(a: real, b: real): (r: real)
    ensures r >= a && r >= b && (r == a || r == b)
  {
    if a >= b then a else b
  }

  /**
   * The pane's state: the number typed (a cash amount when trading by value, else a share count),
   * the quote price, the fee fraction, the by-value switch, the tab (0 buy, 1 sell), the buying
   * power (the user's cash) and the shares available to sell.
   */
  datatype Form = Form(count: real, price: real, tradeFee: real, byValue: bool, tabIndex: int,
                       buyingPower: real, availableShares: real)

  predicate Priced(f: Form)
  {
    f.price != 0.0
  }

  lemma FloorPositive(f: Form)
    requires Priced(f)
    ensures f.price * Max(1.0 - f.tradeFee, DenominatorFloor) != 0.0
  {
    var d := Max(1.0 - f.tradeFee, DenominatorFloor);
    assert d > 0.0;
    NonZeroProduct(f.price, d);
  }

  lemma NonZeroProduct(x: real, y: real)
    requires x != 0.0 && y != 0.0
    ensures x * y != 0.0
  {
  }

  /** `estimatedShares`. */
  function EstimatedShares(f: Form): real
    requires Priced(f)
  {
    if !f.byValue then f.count
    else if f.tabIndex == 0 then Max(f.count - f.count * f.tradeFee, 0.0) / f.price
    else
      FloorPositive(f);
      f.count / (f.price * Max(1.0 - f.tradeFee, DenominatorFloor))
  }

  /** `grossAmount`: what is spent on a buy, or the proceeds before the fee on a sell. */
  function GrossAmount(f: Form): real
    requires Priced(f)
  {
    if !f.byValue then f.price * f.count
    else if f.tabIndex == 0 then f.count
    else EstimatedShares(f) * f.price
  }

  function FeeAmount(f: Form): real
    requires Priced(f)
  {
    GrossAmount(f) * f.tradeFee
  }

  function NetAmount(f: Form): real
    requires Priced(f)
  {
    Max(GrossAmount(f) - FeeAmount(f), 0.0)
  }

  /** The cash a buy needs: the amount itself by value, gross plus fee by quantity. */
  function RequiredCash(f: Form): real
    requires Priced(f)
  {
    if f.byValue then f.count else GrossAmount(f) + FeeAmount(f)
  }

  /** `isBuyDisabled`: never on the sell tab. */
  function IsBuyDisabled(f: Form): (disabled: bool)
    requires Priced(f)
    ensures f.tabIndex != 0 ==> !disabled
    ensures f.tabIndex == 0 ==> (disabled <==> RequiredCash(f) > f.buyingPower || EstimatedShares(f) <= 0.0)
  {
    if f.tabIndex != 0 then false
    else RequiredCash(f) > f.buyingPower || EstimatedShares(f) <= 0.0
  }

  /** `isSellDisabled`: never on the buy tab. */
  function IsSellDisabled(f: Form): (disabled: bool)
    requires Priced(f)
    ensures f.tabIndex != 1 ==> !disabled
    ensures f.tabIndex == 1 ==> (disabled <==> EstimatedShares(f) <= 0.0 || EstimatedShares(f) > f.availableShares)
  {
    if f.tabIndex != 1 then false
    else EstimatedShares(f) <= 0.0 || EstimatedShares(f) > f.availableShares
  }

  /**
   * By share count the preview is the server's quantity mode: the count is the quantity sent, and
   * gross plus fee is exactly what the server debits.
   */
  lemma ByQuantityIsServerQuantityMode(f: Form)
    requires Priced(f) && !f.byValue
    ensures EstimatedShares(f) == f.count
    ensures GrossAmount(f) == Stocks.QuantityCost(f.price, f.count)
    ensures FeeAmount(f) == Stocks.QuantityFee(f.price, f.count, f.tradeFee)
    ensures RequiredCash(f) == Stocks.QuantityCost(f.price, f.count) + Stocks.QuantityFee(f.price, f.count, f.tradeFee)
  {
  }

  lemma NonNegativeNet(count: real, fee: real)
    requires count >= 0.0 && fee <= 1.0
    ensures count - count * fee >= 0.0
  {
    assert count - count * fee == count * (1.0 - fee);
    NonNegativeProduct(count, 1.0 - fee);
  }

  lemma NonNegativeProduct(x: real, y: real)
    requires x >= 0.0 && y >= 0.0
    ensures x * y >= 0.0
  {
  }

  /**
   * Buying by value with a fee of at most 100% previews the quantity and fee the server's amount
   * mode credits and records for that amount.
   */
  lemma ByValueBuyIsServerAmountMode(f: Form)
    requires Priced(f) && f.byValue && f.tabIndex == 0
    requires f.count >= 0.0 && f.tradeFee <= 1.0
    ensures GrossAmount(f) == f.count
    ensures EstimatedShares(f) == Stocks.AmountQuantity(f.count, f.price, f.tradeFee)
    ensures FeeAmount(f) == Stocks.AmountFee(f.count, f.tradeFee)
  {
    NonNegativeNet(f.count, f.tradeFee);
  }

  /**
   * Selling by value: the shares previewed are the shares whose proceeds after the fee are the
   * amount typed, so the net credit shown and the server's credit for those shares both equal it.
   * This needs the fee to leave at least the floor `1e-12` of the proceeds.
   */
  lemma ByValueSellNetsCount(f: Form)
    requires Priced(f) && f.byValue && f.tabIndex == 1
    requires f.count >= 0.0 && 1.0 - f.tradeFee >= DenominatorFloor
    ensures NetAmount(f) == f.count
    ensures Stocks.SellProceeds(f.price, EstimatedShares(f), f.tradeFee) == f.count
  {
    var d := 1.0 - f.tradeFee;
    FloorPositive(f);
    var shares := EstimatedShares(f);
    assert shares == f.count / (f.price * d);
    SharesTimesPrice(f.count, f.price, d, shares, GrossAmount(f));
    assert GrossAmount(f) - FeeAmount(f) == GrossAmount(f) * d;
    assert Stocks.QuantityCost(f.price, shares) == GrossAmount(f);
  }

  lemma SharesTimesPrice(count: real, price: real, d: real, shares: real, gross: real)
    requires price != 0.0 && d > 0.0 && price * d != 0.0
    requires shares == count / (price * d) && gross == shares * price
    ensures gross * d == count
  {
    DivTimes(count, price * d);
    assert shares * (price * d) == count;
    assert gross * d == shares * (price * d);
  }

  /**
   * An enabled Buy button, with the buying power the user's cash, passes the server's funds test
   * in the mode the pane submits: the amount by value, the share count by quantity. By value with a
   * positive price and a fee of at most 100% the amount is positive, so the server takes amount
   * mode.
   */
  lemma EnabledBuyPassesServer(f: Form, cash: real)
    requires Priced(f) && f.tabIndex == 0 && !IsBuyDisabled(f) && f.buyingPower == cash
    ensures EstimatedShares(f) > 0.0
    ensures f.byValue ==> !(cash < f.count)
    ensures f.byValue && f.price > 0.0 && f.tradeFee <= 1.0 ==> Stocks.AmountMode(Some(f.count))
    ensures !f.byValue ==>
      f.count > 0.0 && !(cash < Stocks.QuantityCost(f.price, f.count) + Stocks.QuantityFee(f.price, f.count, f.tradeFee))
  {
    if f.byValue && f.price > 0.0 && f.tradeFee <= 1.0 {
      var net := Max(f.count - f.count * f.tradeFee, 0.0);
      PositiveDividend(net, f.price);
      assert net > 0.0;
      assert net == f.count - f.count * f.tradeFee;
      assert f.count - f.count * f.tradeFee > 0.0;
      PositiveNetCount(f.count, f.tradeFee);
    }
  }

  lemma PositiveDividend(x: real, y: real)
    requires y > 0.0 && x / y > 0.0
    ensures x > 0.0
  {
    if x <= 0.0 {
      NonPositiveQuotient(x, y);
    }
  }

  lemma NonPositiveQuotient(x: real, y: real)
    requires y > 0.0 && x <= 0.0
    ensures x / y <= 0.0
  {
  }

  lemma PositiveNetCount(count: real, fee: real)
    requires fee <= 1.0 && count - count * fee > 0.0
    ensures count > 0.0
  {
    assert count - count * fee == count * (1.0 - fee);
    if count <= 0.0 {
      NonNegativeProduct(-count, 1.0 - fee);
    }
  }

  /**
   * An enabled Sell button, with the available shares the sum the server computes, submits a
   * positive quantity the server's ownership test accepts.
   */
  lemma EnabledSellPassesServer(f: Form, ps: seq<Position>, symbol: string)
    requires Priced(f) && f.tabIndex == 1 && !IsSellDisabled(f) && f.availableShares == SymbolTotal(ps, symbol)
    ensures EstimatedShares(f) > 0.0
    ensures !(SymbolTotal(ps, symbol) < EstimatedShares(f))
  {
  }
}
