// trading/execution.py: the canonical order engine. A decision and an
// account snapshot become at most one market order on the exchange and an
// execution result; a successful order or a hold is written to the trades
// table.
module Execution {
  import opened Wrappers
  import opened JsonCleaner
  import opened Ledger
  import opened DecisionModels
  import Account
  import Settings
  import TradeRecorder

  datatype Side = Bid | Ask

  /** One market-order call: a buy spends `quantity` KRW, a sell sells `quantity` BTC. */
  datatype Order = MarketOrder(side: Side, ticker: string, quantity: real)

  /**
   * What a market-order call gives back: a non-empty dict (with or without
   * a 'uuid'), a falsy value, some other truthy value, or an exception.
   */
  datatype OrderResponse = Receipt(uuid: Option<string>) | Falsy | TruthyNonDict | Raised

  /** The exchange account the bot trades on: every market-order call it has been sent, in order. */
  class Exchange {
    var orders: seq<Order>

    constructor ()
      ensures orders == []
    {
      orders := [];
    }

    /** buy_market_order / sell_market_order: the call reaches the exchange whatever it answers. */
    method Submit(o: Order)
      modifies this`orders
      ensures orders == old(orders) + [o]
    {
      orders := orders + [o];
    }
  }

  /** The execution_result dict. */
  datatype ExecutionResult = ExecutionResult(
    action: string, price: real, amount: real, totalValue: real, fee: real,
    orderId: string, status: string, success: bool)

  /** The result before any branch has run (trading/execution.py:17-26). */
  const Initial: ExecutionResult := ExecutionResult("none", 0.0, 0.0, 0.0, 0.0, "", "skipped", false)

  /** The result as save_trade_record reads it: every key present. */
  function AsDict(r: ExecutionResult): (d: TradeRecorder.ExecutionDict)
    ensures d.action == Some(r.action) && d.status == Some(r.status) && d.orderId == Some(r.orderId)
  {
    TradeRecorder.ExecutionDict(
      Some(r.action), Some(r.price), Some(r.amount), Some(r.totalValue), Some(r.fee),
      Some(r.orderId), Some(r.status))
  }

  /** The KRW a buy spends: the trade ratio of the balance, raised to the minimum order. */
  function BuyNotional(krw: real): real
  {
    var c := Settings.GetTradingConfig();
    if krw * c.tradeRatio < c.minAmount then c.minAmount else krw * c.tradeRatio
  }

  /** The BTC a sell sells: the trade ratio of the holding, or all of it when that part is below the minimum order. */
  function SellQuantity(btc: real, price: real): real
  {
    var c := Settings.GetTradingConfig();
    if btc * c.tradeRatio * price < c.minAmount then btc else btc * c.tradeRatio
  }

  /** The market order execute_trading_decision sends, if any. */
  function PlannedOrder(decision: string, status: Option<Account.InvestmentStatus>): Option<Order>
  {
    if status.None? then None
    else
      var s := status.value;
      var c := Settings.GetTradingConfig();
      if decision == "buy" then
        if s.krwBalance < c.minAmount then None
        else Some(MarketOrder(Bid, "KRW-BTC", BuyNotional(s.krwBalance)))
      else if decision == "sell" then
        if s.btcBalance * s.currentPrice < c.minAmount then None
        else Some(MarketOrder(Ask, "KRW-BTC", SellQuantity(s.btcBalance, s.currentPrice)))
      else None
  }

  function OrdersOf(o: Option<Order>): seq<Order>
  {
    if o.Some? then [o.value] else []
  }

  /** The result execute_trading_decision returns, given what the order call answers. */
  function Outcome(decision: string, status: Option<Account.InvestmentStatus>, response: OrderResponse): ExecutionResult
  {
    if status.None? then Initial
    else
      var s := status.value;
      var c := Settings.GetTradingConfig();
      if decision == "buy" then
        if s.krwBalance < c.minAmount then Initial.(status := "insufficient_balance")
        else
          var n := BuyNotional(s.krwBalance);
          var fee := n * c.feeRate;
          match response
          case Receipt(uuid) =>
            // expected_btc is bound only for a positive price
            if s.currentPrice > 0.0 then
              ExecutionResult("buy", s.currentPrice, (n - fee) / s.currentPrice, n, fee, uuid.GetOr(""), "executed", true)
            else Initial.(status := "error")
          case Falsy => Initial.(status := "failed")
          case _ => Initial.(status := "error")
      else if decision == "sell" then
        if s.btcBalance * s.currentPrice < c.minAmount then Initial.(status := "insufficient_balance")
        else
          var q := SellQuantity(s.btcBalance, s.currentPrice);
          var value := q * s.currentPrice;
          match response
          case Receipt(uuid) =>
            ExecutionResult("sell", s.currentPrice, q, value, value * c.feeRate, uuid.GetOr(""), "executed", true)
          case Falsy => Initial.(status := "failed")
          case _ => Initial.(status := "error")
      else if decision == "hold" then
        ExecutionResult("hold", s.currentPrice, 0.0, 0.0, 0.0, "", "held", true)
      else Initial.(status := "unknown_decision")
  }

  /** The ledger row save_trade_record writes for a result. */
  function RowFor(decision: DecisionRecord, r: ExecutionResult, s: Account.InvestmentStatus, market: Option<PyValue>, now: int): TradeRow
  {
    TradeRecorder.TradeRowFor(decision, AsDict(r), TradeRecorder.StatusFields(s), market, now)
  }

  /**
   * `decision['decision']`: the decision string, or the exception the
   * subscript raises when the AI call gave None (TypeError) or its answer
   * has no 'decision' key (KeyError).
   */
  function DecisionKey(decision: Option<DecisionRecord>): (r: Result<string, string>)
    ensures r.Ok? <==> decision.Some? && decision.value.decision.Some?
    ensures r.Ok? ==> decision.value.decision == Some(r.value)
    ensures decision.None? ==> r == Err("TypeError")
  {
    if decision.None? then Err("TypeError")
    else if decision.value.decision.None? then Err("KeyError")
    else Ok(decision.value.decision.value)
  }

  /**
   * execute_trading_decision (trading/execution.py:11-207). `decision` is
   * what the AI call returned, None when it failed. Without a snapshot the
   * routine skips before it reads the decision; with one, a missing decision
   * makes `decision['decision']` raise before any order or row, and `Err`
   * names the exception that leaves the routine. `response` is what the
   * exchange answers to the order call, if one is made. The ledger row is
   * written with the pre-trade snapshot.
   */
  method ExecuteTradingDecision(
    upbit: Exchange, db: Database, decision: Option<DecisionRecord>, status: Option<Account.InvestmentStatus>,
    market: Option<PyValue>, response: OrderResponse, now: int) returns (r: Result<ExecutionResult, string>)
    requires db.Valid()
    modifies upbit`orders, db`trades
    ensures db.Valid()
    ensures status.None? ==>
      r == Ok(Initial) && upbit.orders == old(upbit.orders) && db.trades == old(db.trades)
    ensures status.Some? && DecisionKey(decision).Err? ==>
      r == Err(DecisionKey(decision).error) && upbit.orders == old(upbit.orders) && db.trades == old(db.trades)
    ensures status.Some? && DecisionKey(decision).Ok? ==>
      var d := DecisionKey(decision).value;
      && r == Ok(Outcome(d, status, response))
      && upbit.orders == old(upbit.orders) + OrdersOf(PlannedOrder(d, status))
      && db.trades == if r.value.success && db.available then
          old(db.trades) + [RowFor(decision.value, r.value, status.value, market, now).(id := |old(db.trades)| + 1)]
        else old(db.trades)
  {
    if status.None? {
      return Ok(Initial);
    }
    var key := DecisionKey(decision);
    if key.Err? {
      return Err(key.error);
    }
    var res := ExecuteDecision(upbit, db, decision.value, status.value, market, response, now);
    r := Ok(res);
  }

  /** The routine past the subscript, for a snapshot and a decision string. */
  method ExecuteDecision(
    upbit: Exchange, db: Database, decision: DecisionRecord, s: Account.InvestmentStatus,
    market: Option<PyValue>, response: OrderResponse, now: int) returns (r: ExecutionResult)
    requires decision.decision.Some?
    requires db.Valid()
    modifies upbit`orders, db`trades
    ensures db.Valid()
    ensures r == Outcome(decision.decision.value, Some(s), response)
    ensures upbit.orders == old(upbit.orders) + OrdersOf(PlannedOrder(decision.decision.value, Some(s)))
    ensures db.trades == if r.success && db.available then
        old(db.trades) + [RowFor(decision, r, s, market, now).(id := |old(db.trades)| + 1)]
      else old(db.trades)
  {
    r := Initial;
    var d := decision.decision.value;
    if d == "buy" {
      r := ExecuteBuy(upbit, db, decision, s, market, response, now);
    } else if d == "sell" {
      r := ExecuteSell(upbit, db, decision, s, market, response, now);
    } else if d == "hold" {
      var price := s.currentPrice;
      r := r.(action := "hold", price := price, amount := 0.0, totalValue := 0.0, fee := 0.0,
              status := "held", success := true);
      var _ := TradeRecorder.SaveTrade(db, decision, AsDict(r), TradeRecorder.StatusFields(s), market, now);
    } else {
      r := r.(status := "unknown_decision");
    }
  }

  /** The buy branch of execute_trading_decision (trading/execution.py:47-117). */
  method ExecuteBuy(
    upbit: Exchange, db: Database, decision: DecisionRecord, s: Account.InvestmentStatus,
    market: Option<PyValue>, response: OrderResponse, now: int) returns (r: ExecutionResult)
    requires db.Valid()
    modifies upbit`orders, db`trades
    ensures db.Valid()
    ensures r == Outcome("buy", Some(s), response)
    ensures upbit.orders == old(upbit.orders) + OrdersOf(PlannedOrder("buy", Some(s)))
    ensures db.trades == if r.success && db.available then
        old(db.trades) + [RowFor(decision, r, s, market, now).(id := |old(db.trades)| + 1)]
      else old(db.trades)
  {
    var c := Settings.GetTradingConfig();
    var krw, price := s.krwBalance, s.currentPrice;
    r := Initial;
    if krw < c.minAmount {
      r := r.(status := "insufficient_balance");
      return;
    }
    var buyAmount := krw * c.tradeRatio;
    if buyAmount < c.minAmount {
      buyAmount := c.minAmount;
    }
    var fee := buyAmount * c.feeRate;
    var actualBuyAmount := buyAmount - fee;
    var expectedBtc: Option<real> := None;
    if price > 0.0 {
      expectedBtc := Some(actualBuyAmount / price);
    }
    upbit.Submit(MarketOrder(Bid, "KRW-BTC", buyAmount));
    match response {
      case Receipt(uuid) =>
        if expectedBtc.None? {
          // NameError on the unbound expected_btc, caught as an error
          r := r.(status := "error");
          return;
        }
        r := r.(action := "buy", price := price, amount := expectedBtc.value, totalValue := buyAmount,
                fee := fee, orderId := uuid.GetOr(""), status := "executed", success := true);
        var _ := TradeRecorder.SaveTrade(db, decision, AsDict(r), TradeRecorder.StatusFields(s), market, now);
      case Falsy =>
        r := r.(status := "failed");
      case _ =>
        r := r.(status := "error");
    }
  }

  /** The sell branch of execute_trading_decision (trading/execution.py:119-187). */
  method ExecuteSell(
    upbit: Exchange, db: Database, decision: DecisionRecord, s: Account.InvestmentStatus,
    market: Option<PyValue>, response: OrderResponse, now: int) returns (r: ExecutionResult)
    requires db.Valid()
    modifies upbit`orders, db`trades
    ensures db.Valid()
    ensures r == Outcome("sell", Some(s), response)
    ensures upbit.orders == old(upbit.orders) + OrdersOf(PlannedOrder("sell", Some(s)))
    ensures db.trades == if r.success && db.available then
        old(db.trades) + [RowFor(decision, r, s, market, now).(id := |old(db.trades)| + 1)]
      else old(db.trades)
  {
    var c := Settings.GetTradingConfig();
    var btc, price := s.btcBalance, s.currentPrice;
    r := Initial;
    SellIsNotBuy();
    if btc * price < c.minAmount {
      r := r.(status := "insufficient_balance");
      return;
    }
    var sellAmount := btc * c.tradeRatio;
    if sellAmount * price < c.minAmount {
      sellAmount := btc;
    }
    var expectedSellAmount := sellAmount * price;
    upbit.Submit(MarketOrder(Ask, "KRW-BTC", sellAmount));
    match response {
      case Receipt(uuid) =>
        r := r.(action := "sell", price := price, amount := sellAmount, totalValue := expectedSellAmount,
                fee := expectedSellAmount * c.feeRate, orderId := uuid.GetOr(""), status := "executed",
                success := true);
        var _ := TradeRecorder.SaveTrade(db, decision, AsDict(r), TradeRecorder.StatusFields(s), market, now);
      case Falsy =>
        r := r.(status := "failed");
      case _ =>
        r := r.(status := "error");
    }
  }

  lemma SellIsNotBuy()
    ensures "sell" != "buy" && "hold" != "buy" && "hold" != "sell"
  {
    assert "sell"[0] != "buy"[0];
    assert "hold"[0] != "buy"[0];
    assert "hold"[0] != "sell"[0];
  }

  /** Without an account snapshot nothing is sent and the result stays 'skipped'. */
  lemma NoStatusSkips(decision: string, response: OrderResponse)
    ensures PlannedOrder(decision, None).None?
    ensures var r := Outcome(decision, None, response);
      r.action == "none" && r.status == "skipped" && !r.success
  {
  }

  /** A ledger row is written exactly when the result reports success: an executed order or a hold. */
  lemma RecordedIffExecutedOrHeld(decision: string, status: Option<Account.InvestmentStatus>, response: OrderResponse)
    ensures var r := Outcome(decision, status, response);
      r.success <==> (r.status == "executed" || r.status == "held")
    ensures var r := Outcome(decision, status, response);
      r.success ==> (PlannedOrder(decision, status).Some? || decision == "hold")
  {
  }

  /** A buy with less than the minimum order in KRW sends nothing. */
  lemma BuyBelowMinimum(s: Account.InvestmentStatus, response: OrderResponse)
    requires s.krwBalance < 5000.0
    ensures PlannedOrder("buy", Some(s)).None?
    ensures Outcome("buy", Some(s), response).status == "insufficient_balance"
    ensures !Outcome("buy", Some(s), response).success
  {
  }

  /** A buy that goes out spends between the minimum order and the whole KRW balance. */
  lemma BuyNotionalWithinBalance(s: Account.InvestmentStatus)
    requires PlannedOrder("buy", Some(s)).Some?
    ensures var o := PlannedOrder("buy", Some(s)).value;
      o.side == Bid && 5000.0 <= o.quantity <= s.krwBalance
  {
  }

  /**
   * 100,000 KRW at a price of 50,000,000: 95,000 is spent, the fee is
   * 47.5 and 0.00189905 BTC is recorded.
   */
  lemma BuyFeeExample(uuid: string)
    ensures Outcome("buy", Some(Account.InvestmentStatus(100000.0, 0.0, 0.0, 50000000.0)), Receipt(Some(uuid)))
      == ExecutionResult("buy", 50000000.0, 0.00189905, 95000.0, 47.5, uuid, "executed", true)
  {
  }

  /**
   * The fee and the amount follow from the notional: the fee is 0.05% of
   * it and the amount buys the rest at the current price.
   */
  lemma BuyAmountsMeaning(s: Account.InvestmentStatus, uuid: Option<string>)
    requires Outcome("buy", Some(s), Receipt(uuid)).success
    ensures var r := Outcome("buy", Some(s), Receipt(uuid));
      r.fee == r.totalValue * 0.0005 && r.amount * r.price + r.fee == r.totalValue
      && r.totalValue == PlannedOrder("buy", Some(s)).value.quantity && r.orderId == uuid.GetOr("")
  {
    var r := Outcome("buy", Some(s), Receipt(uuid));
    assert r.price > 0.0;
    assert r.amount * r.price == r.totalValue - r.fee;
  }

  /**
   * At a price of 0 or below the expected amount is never bound, so an
   * accepted buy order still ends as an 'error' with action 'none' and no
   * ledger row.
   */
  lemma BuyAtNonPositivePrice(s: Account.InvestmentStatus, uuid: Option<string>)
    requires s.krwBalance >= 5000.0 && s.currentPrice <= 0.0
    ensures PlannedOrder("buy", Some(s)).Some?
    ensures var r := Outcome("buy", Some(s), Receipt(uuid));
      r.status == "error" && r.action == "none" && !r.success
  {
  }

  /**
   * A sell that goes out never sells more BTC than is held, and its value
   * at the current price is at least the minimum order.
   */
  lemma SellWithinHoldings(s: Account.InvestmentStatus)
    requires s.btcBalance >= 0.0
    requires PlannedOrder("sell", Some(s)).Some?
    ensures var o := PlannedOrder("sell", Some(s)).value;
      o.side == Ask && o.quantity <= s.btcBalance && o.quantity * s.currentPrice >= 5000.0
  {
  }

  /** A sell whose holding is worth less than the minimum order sends nothing. */
  lemma SellBelowMinimum(s: Account.InvestmentStatus, response: OrderResponse)
    requires s.btcBalance * s.currentPrice < 5000.0
    ensures PlannedOrder("sell", Some(s)).None?
    ensures Outcome("sell", Some(s), response).status == "insufficient_balance"
  {
    SellIsNotBuy();
    var c := Settings.GetTradingConfig();
    assert s.btcBalance * s.currentPrice < c.minAmount;
    assert PlannedOrder("sell", Some(s)) == None;
  }

  /**
   * Once an order is sent, a receipt makes it 'executed' (a buy also needs
   * a positive price), a falsy answer 'failed', and anything else 'error';
   * a sale's fee is 0.05% of its value.
   */
  lemma OrderCallOutcomes(decision: string, s: Account.InvestmentStatus, response: OrderResponse)
    requires PlannedOrder(decision, Some(s)).Some?
    ensures var r := Outcome(decision, Some(s), response);
      (r.success <==> response.Receipt? && (decision == "sell" || s.currentPrice > 0.0))
      && (response.Falsy? ==> r.status == "failed")
      && ((response.Raised? || response.TruthyNonDict?) ==> r.status == "error")
      && (r.success ==> r.status == "executed" && r.action == decision && r.orderId == response.uuid.GetOr(""))
      && (r.success && decision == "sell" ==> r.fee == r.totalValue * 0.0005 && r.amount == PlannedOrder(decision, Some(s)).value.quantity)
  {
  }

  /** A hold sends nothing and reports 'held' at the current price with zero amounts. */
  lemma HoldSendsNothing(s: Account.InvestmentStatus, response: OrderResponse)
    ensures PlannedOrder("hold", Some(s)).None?
    ensures Outcome("hold", Some(s), response) == ExecutionResult("hold", s.currentPrice, 0.0, 0.0, 0.0, "", "held", true)
  {
  }

  /** Any other decision string sends nothing and reports 'unknown_decision'. */
  lemma UnknownDecision(decision: string, s: Account.InvestmentStatus, response: OrderResponse)
    requires decision != "buy" && decision != "sell" && decision != "hold"
    ensures PlannedOrder(decision, Some(s)).None?
    ensures Outcome(decision, Some(s), response).status == "unknown_decision"
    ensures !Outcome(decision, Some(s), response).success
  {
  }
}
