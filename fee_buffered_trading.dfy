// The order routine and account snapshot shared, word for word, by
// advanced_ai_trading.py, enhanced_trading.py and
// enhanced_trading_with_indicators.py: orders keep a 0.05% fee buffer
// (x 0.9995) and the routine answers only whether it went ahead.
module FeeBufferedTrading {
  import opened Wrappers
  import Account
  import Execution

  /** The dict get_investment_status returns (its pending orders are passed through unread). */
  datatype Status = Status(krwBalance: real, btcBalance: real, currentPrice: real, totalAssets: real, btcRatio: real)

  /** A balance as the snapshot keeps it: a failed, missing or non-positive answer becomes 0. */
  function Balance(f: Account.Fetch<real>): (b: real)
    ensures b >= 0.0
    ensures b > 0.0 <==> f.Fetched? && f.value > 0.0
  {
    if f.Fetched? && f.value > 0.0 then f.value else 0.0
  }

  /** What an amount of BTC is worth in KRW at a price. */
  function Worth(amount: real, price: real): real
  {
    amount * price
  }

  /** A part as a percentage of a whole that is not zero. */
  function Percent(part: real, whole: real): real
    requires whole != 0.0
  {
    part / whole * 100.0
  }

  /**
   * get_investment_status as written: the price call is outside any
   * handler, and the BTC share divides by the total assets without a guard.
   */
  function StatusAsWritten(krw: Account.Fetch<real>, btc: Account.Fetch<real>, price: Account.Fetch<real>): Result<Status, string>
  {
    if price.Raised? then Err("price request failed")
    else
      var k, b := Balance(krw), Balance(btc);
      var p := if price.Fetched? then price.value else 0.0;
      if b > 0.0 then
        var total := k + Worth(b, p);
        if total == 0.0 then Err("ZeroDivisionError")
        else Ok(Status(k, b, p, total, Percent(Worth(b, p), total)))
      else Ok(Status(k, b, p, k, 0.0))
  }

  /** The snapshot with the BTC share taken as 0 when there are no assets to divide by. */
  function StatusCorrected(krw: Account.Fetch<real>, btc: Account.Fetch<real>, price: Account.Fetch<real>): Result<Status, string>
  {
    if price.Raised? then Err("price request failed")
    else
      var k, b := Balance(krw), Balance(btc);
      var p := if price.Fetched? then price.value else 0.0;
      if b > 0.0 then
        var total := k + Worth(b, p);
        Ok(Status(k, b, p, total, if total == 0.0 then 0.0 else Percent(Worth(b, p), total)))
      else Ok(Status(k, b, p, k, 0.0))
  }

  /**
   * A fully invested account (BTC but no KRW) whose price request comes
   * back empty makes the snapshot raise instead of reporting a price of 0.
   */
  lemma FullyInvestedWithoutPriceFails(btc: real)
    requires btc > 0.0
    ensures StatusAsWritten(Account.FetchedNone, Account.Fetched(btc), Account.FetchedNone) == Err("ZeroDivisionError")
    ensures StatusCorrected(Account.FetchedNone, Account.Fetched(btc), Account.FetchedNone)
      == Ok(Status(0.0, btc, 0.0, 0.0, 0.0))
  {
  }

  /**
   * The corrected snapshot fails only when the price request raises, and it
   * agrees with the one as written whenever that one succeeds; where that
   * one divides by zero it reports a BTC share of 0.
   */
  lemma StatusCorrectedMeaning(krw: Account.Fetch<real>, btc: Account.Fetch<real>, price: Account.Fetch<real>)
    ensures StatusCorrected(krw, btc, price).Err? <==> price.Raised?
    ensures StatusAsWritten(krw, btc, price).Ok? ==> StatusAsWritten(krw, btc, price) == StatusCorrected(krw, btc, price)
    ensures StatusAsWritten(krw, btc, price).Err? && !price.Raised? ==>
      var s := StatusCorrected(krw, btc, price).value;
      s.btcBalance > 0.0 && s.totalAssets == 0.0 && s.btcRatio == 0.0
  {
  }

  /**
   * Balances are never negative, the total is the KRW plus the BTC at the
   * current price, and with a non-negative price the BTC share is a
   * percentage.
   */
  lemma StatusBounds(krw: Account.Fetch<real>, btc: Account.Fetch<real>, price: Account.Fetch<real>)
    requires StatusCorrected(krw, btc, price).Ok?
    ensures var s := StatusCorrected(krw, btc, price).value;
      s.krwBalance >= 0.0 && s.btcBalance >= 0.0
      && s.totalAssets == s.krwBalance + Worth(s.btcBalance, s.currentPrice)
      && (s.currentPrice >= 0.0 ==> 0.0 <= s.btcRatio <= 100.0)
  {
    var k, b := Balance(krw), Balance(btc);
    var p := if price.Fetched? then price.value else 0.0;
    if b > 0.0 && p >= 0.0 && k + Worth(b, p) != 0.0 {
      assert 0.0 <= Worth(b, p);
      ShareIsPercent(Worth(b, p), k + Worth(b, p));
    }
  }

  /** A part of a positive whole, as a percentage of it. */
  lemma ShareIsPercent(v: real, total: real)
    requires 0.0 <= v <= total && total != 0.0
    ensures 0.0 <= Percent(v, total) <= 100.0
  {
    var f := v / total;
    assert f * total == v;
  }

  /** Comparing with a quotient is comparing the product, for a positive divisor. */
  lemma QuotientCompare(q: real, c: real, p: real)
    requires p > 0.0
    ensures q > c / p <==> Worth(q, p) > c
  {
    var d := c / p;
    assert d * p == c;
    assert q * p - c == (q - d) * p;
    if q > d {
      PositiveProduct(q - d, p);
    } else {
      PositiveProduct(d - q, p);
      assert (q - d) * p == -((d - q) * p);
    }
  }

  /** The sign of a product with a positive factor. */
  lemma PositiveProduct(a: real, b: real)
    requires a >= 0.0 && b > 0.0
    ensures a * b >= 0.0 && (a > 0.0 ==> a * b > 0.0)
  {
  }

  /** The part of a balance an order may use, leaving room for the 0.05% fee. */
  function Buffered(balance: real): real
  {
    balance * 0.9995
  }

  /**
   * The order the routine sends, or the exception it raises before any
   * order; 5000 KRW is the exchange's minimum order.
   */
  function Plan(decision: string, s: Status): Result<Option<Execution.Order>, string>
  {
    if decision == "buy" then
      if Buffered(s.krwBalance) > 5000.0
      then Ok(Some(Execution.MarketOrder(Execution.Bid, "KRW-BTC", Buffered(s.krwBalance))))
      else Ok(None)
    else if decision == "sell" then
      if s.currentPrice == 0.0 then Err("ZeroDivisionError")
      else if Buffered(s.btcBalance) > 5000.0 / s.currentPrice
      then Ok(Some(Execution.MarketOrder(Execution.Ask, "KRW-BTC", Buffered(s.btcBalance))))
      else Ok(None)
    else Ok(None)
  }

  /** What the routine returns: True for a hold or once an order call returns at all, whatever it answers. */
  function Returns(decision: string, s: Status, response: Execution.OrderResponse): Result<bool, string>
  {
    match Plan(decision, s)
    case Err(e) => Err(e)
    case Ok(order) =>
      if order.Some? then Ok(!response.Raised?)
      else Ok(decision == "hold")
  }

  /**
   * execute_trading_decision (advanced_ai_trading.py:894-944). `decision`
   * must carry a 'decision' key. An `Err` is an exception that leaves the
   * routine.
   */
  method ExecuteTradingDecision(upbit: Execution.Exchange, decision: string, s: Status, response: Execution.OrderResponse)
    returns (r: Result<bool, string>)
    modifies upbit`orders
    ensures r == Returns(decision, s, response)
    ensures upbit.orders == old(upbit.orders) + if Plan(decision, s).Ok? then Execution.OrdersOf(Plan(decision, s).value) else []
  {
    var krw, btc, price := s.krwBalance, s.btcBalance, s.currentPrice;
    Execution.SellIsNotBuy();
    if decision == "buy" {
      if Buffered(krw) > 5000.0 {
        var buyAmount := Buffered(krw);
        upbit.Submit(Execution.MarketOrder(Execution.Bid, "KRW-BTC", buyAmount));
        r := Ok(!response.Raised?);
      } else {
        r := Ok(false);
      }
    } else if decision == "sell" {
      if price == 0.0 {
        return Err("ZeroDivisionError");
      }
      if Buffered(btc) > 5000.0 / price {
        var sellAmount := Buffered(btc);
        upbit.Submit(Execution.MarketOrder(Execution.Ask, "KRW-BTC", sellAmount));
        r := Ok(!response.Raised?);
      } else {
        r := Ok(false);
      }
    } else if decision == "hold" {
      r := Ok(true);
    } else {
      r := Ok(false);
    }
  }

  /**
   * A buy goes out exactly when 99.95% of the KRW balance exceeds the
   * minimum order, and spends that much, never the whole balance
   * (enhanced_trading.py:362-378).
   */
  lemma BuyThreshold(s: Status)
    ensures Plan("buy", s).Ok?
    ensures Plan("buy", s).value.Some? <==> Buffered(s.krwBalance) > 5000.0
    ensures Plan("buy", s).value.Some? ==>
      var o := Plan("buy", s).value.value;
      o.side == Execution.Bid && 5000.0 < o.quantity < s.krwBalance
  {
  }

  /**
   * For a positive price, a sell goes out exactly when 99.95% of the BTC
   * held is worth more than the minimum order, and it never sells all of it
   * (enhanced_trading_with_indicators.py:549-565).
   */
  lemma SellThreshold(s: Status)
    requires s.currentPrice > 0.0
    ensures Plan("sell", s).Ok?
    ensures Plan("sell", s).value.Some? <==> Worth(Buffered(s.btcBalance), s.currentPrice) > 5000.0
    ensures Plan("sell", s).value.Some? ==>
      var o := Plan("sell", s).value.value;
      o.side == Execution.Ask && o.quantity < s.btcBalance && Worth(o.quantity, s.currentPrice) > 5000.0
  {
    Execution.SellIsNotBuy();
    QuotientCompare(Buffered(s.btcBalance), 5000.0, s.currentPrice);
    if Worth(Buffered(s.btcBalance), s.currentPrice) > 5000.0 {
      assert Buffered(s.btcBalance) > 0.0;
    }
  }

  /** A sell signal at a price of 0 raises before any order is sent. */
  lemma SellAtZeroPriceFails(s: Status, response: Execution.OrderResponse)
    requires s.currentPrice == 0.0
    ensures Plan("sell", s).Err? && Returns("sell", s, response) == Err("ZeroDivisionError")
  {
    Execution.SellIsNotBuy();
  }

  /** The sell test with the minimum order compared to the holding's value instead of divided by the price. */
  function SellPlanCorrected(s: Status): (o: Option<Execution.Order>)
  {
    if Worth(Buffered(s.btcBalance), s.currentPrice) > 5000.0
    then Some(Execution.MarketOrder(Execution.Ask, "KRW-BTC", Buffered(s.btcBalance)))
    else None
  }

  /**
   * The corrected sell test never raises, sends nothing at a price of 0 or
   * below, and agrees with the routine for every positive price.
   */
  lemma SellPlanCorrectedMeaning(s: Status)
    ensures s.currentPrice <= 0.0 && s.btcBalance >= 0.0 ==> SellPlanCorrected(s).None?
    ensures s.currentPrice > 0.0 ==> Plan("sell", s) == Ok(SellPlanCorrected(s))
    ensures SellPlanCorrected(s).Some? ==> Worth(SellPlanCorrected(s).value.quantity, s.currentPrice) > 5000.0
  {
    if s.currentPrice > 0.0 {
      SellThreshold(s);
    }
    if s.currentPrice <= 0.0 && s.btcBalance >= 0.0 {
      assert Buffered(s.btcBalance) >= 0.0;
      assert Worth(Buffered(s.btcBalance), s.currentPrice) <= 0.0;
    }
  }

  /**
   * Once an order is sent the routine reports True whatever the exchange
   * answers, even nothing; only an exception from the call gives False
   * (advanced_ai_trading.py:911-917).
   */
  lemma AnyAnswerCountsAsDone(decision: string, s: Status, response: Execution.OrderResponse)
    requires Plan(decision, s).Ok? && Plan(decision, s).value.Some?
    ensures Returns(decision, s, response) == Ok(!response.Raised?)
    ensures Returns(decision, s, Execution.Falsy) == Ok(true)
  {
  }

  /** A hold always reports True and sends nothing; any other signal sends nothing and reports False. */
  lemma HoldAndUnknown(decision: string, s: Status, response: Execution.OrderResponse)
    requires decision != "buy" && decision != "sell"
    ensures Plan(decision, s) == Ok(None)
    ensures Returns(decision, s, response) == Ok(decision == "hold")
  {
  }
}
