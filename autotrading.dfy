// autotrading.py: the entry point's own order routine, which returns a
// bool, and the helper that writes the ledger and the immediate reflection
// after a trade.
module AutoTrading {
  import opened Wrappers
  import opened JsonCleaner
  import opened Ledger
  import opened DecisionModels
  import Account
  import TradeRecorder
  import Reflection
  import Execution

  /** The execution_result dict this routine builds; every key is always present. */
  datatype ExecutionRecord = ExecutionRecord(
    action: string, price: real, amount: real, totalValue: real, fee: real, orderId: string, status: string)

  function AsDict(r: ExecutionRecord): (d: TradeRecorder.ExecutionDict)
    ensures d.action == Some(r.action) && d.status == Some(r.status)
  {
    TradeRecorder.ExecutionDict(
      Some(r.action), Some(r.price), Some(r.amount), Some(r.totalValue), Some(r.fee),
      Some(r.orderId), Some(r.status))
  }

  /** Whether execute_trading_decision returns True. */
  predicate Executes(decision: string, status: Option<Account.InvestmentStatus>, response: Execution.OrderResponse)
  {
    if status.None? then false
    else
      var s := status.value;
      if decision == "buy" then s.krwBalance >= 5000.0 && response.Receipt?
      else if decision == "sell" then s.btcBalance * s.currentPrice >= 5000.0 && response.Receipt?
      else decision == "hold"
  }

  /** The execution_result handed to the ledger when the routine returns True. */
  function Record(decision: string, s: Account.InvestmentStatus, response: Execution.OrderResponse): ExecutionRecord
  {
    var price := s.currentPrice;
    var uuid := if response.Receipt? then response.uuid.GetOr("") else "";
    if decision == "buy" then
      var n := Execution.BuyNotional(s.krwBalance);
      var fee := n * 0.0005;
      ExecutionRecord("buy", price, if price > 0.0 then (n - fee) / price else 0.0, n, fee, uuid, "executed")
    else if decision == "sell" then
      var q := Execution.SellQuantity(s.btcBalance, price);
      ExecutionRecord("sell", price, q, q * price, q * price * 0.0005, uuid, "executed")
    else ExecutionRecord("hold", price, 0.0, 0.0, 0.0, "", "executed")
  }

  /** The key-value pairs save_market_data stores: present only for a truthy dict. */
  function MarketEntries(market: Option<PyValue>): Option<seq<(string, PyValue)>>
  {
    if market.Some? && market.value.PyDict? && Truthy(market.value) then Some(market.value.entries) else None
  }

  /** A truthy market value that is not a dict makes save_market_data's `.get` raise. */
  predicate MarketRaises(market: Option<PyValue>)
  {
    market.Some? && Truthy(market.value) && !market.value.PyDict?
  }

  /** `market_data or {}`. */
  function ReflectionMarket(market: Option<PyValue>): (m: PyValue)
    ensures !Truthy(m) ==> m == PyDict([])
  {
    if market.Some? && Truthy(market.value) then market.value else PyDict([])
  }

  /**
   * Whether the helper stores an immediate reflection: only for an executed
   * buy or sell, on a live connection, when the market-data save did not
   * raise and the reflection's market conditions can be dumped.
   */
  predicate Reflects(available: bool, r: ExecutionRecord, market: Option<PyValue>)
  {
    available && r.status == "executed" && r.action != "hold"
    && !MarketRaises(market) && Encodable(ReflectionMarket(market))
  }

  /**
   * _save_trade_and_create_reflection (autotrading.py:1122-1175). Every
   * exception is swallowed; the new trade's id is read back as MAX(id).
   */
  method SaveTradeAndCreateReflection(
    db: Database, decision: DecisionRecord, r: ExecutionRecord, status: Account.InvestmentStatus,
    market: Option<PyValue>, now: int)
    requires db.Valid()
    modifies db`trades, db`marketData, db`reflections
    ensures db.Valid()
    ensures db.trades == if db.available
      then old(db.trades) + [TradeRecorder.TradeRowFor(decision, AsDict(r), TradeRecorder.StatusFields(status), market, now)
        .(id := |old(db.trades)| + 1)]
      else old(db.trades)
    ensures db.marketData == if db.available && MarketEntries(market).Some?
      then old(db.marketData) + [TradeRecorder.MarketRowFor(MarketEntries(market).value, now)]
      else old(db.marketData)
    ensures db.reflections == if Reflects(db.available, r, market)
      then old(db.reflections) + [Reflection.ImmediateRow(|db.trades|, decision, ReflectionMarket(market))]
      else old(db.reflections)
  {
    var _ := TradeRecorder.SaveTrade(db, decision, AsDict(r), TradeRecorder.StatusFields(status), market, now);
    if market.Some? && Truthy(market.value) {
      if !db.available {
        // save_market_data gives up before it reads the dict
      } else if market.value.PyDict? {
        var _ := TradeRecorder.SaveMarketData(db, market.value.entries, now);
      } else {
        // AttributeError on `.get`, caught by the outer handler
        return;
      }
    }
    if r.status == "executed" && r.action != "hold" {
      if db.available {
        var lastId := |db.trades|;
        if lastId > 0 {
          var _ := Reflection.CreateImmediateReflection(db, lastId, decision, ReflectionMarket(market));
        }
      }
    }
  }

  /**
   * execute_trading_decision (autotrading.py:937-1120). `decision` is what
   * the AI call returned, None when it failed. Without a snapshot the routine
   * returns False before it reads the decision; with one, a missing decision
   * makes `decision['decision']` raise before any order or row, and `Err`
   * names the exception that leaves the routine. `response` is what the
   * exchange answers to the order call, if one is made.
   */
  method ExecuteTradingDecision(
    upbit: Execution.Exchange, db: Database, decision: Option<DecisionRecord>, status: Option<Account.InvestmentStatus>,
    market: Option<PyValue>, response: Execution.OrderResponse, now: int) returns (executed: Result<bool, string>)
    requires db.Valid()
    modifies upbit`orders, db`trades, db`marketData, db`reflections
    ensures db.Valid()
    ensures status.None? || Execution.DecisionKey(decision).Err? ==>
      && executed == (if status.None? then Ok(false) else Err(Execution.DecisionKey(decision).error))
      && upbit.orders == old(upbit.orders)
      && db.trades == old(db.trades) && db.marketData == old(db.marketData) && db.reflections == old(db.reflections)
    ensures status.Some? && Execution.DecisionKey(decision).Ok? ==>
      var d := Execution.DecisionKey(decision).value;
      && executed == Ok(Executes(d, status, response))
      && upbit.orders == old(upbit.orders) + Execution.OrdersOf(Execution.PlannedOrder(d, status))
    ensures executed == Ok(false) ==>
      db.trades == old(db.trades) && db.marketData == old(db.marketData) && db.reflections == old(db.reflections)
    ensures executed == Ok(true) ==> status.Some? && decision.Some? && decision.value.decision.Some?
    ensures executed == Ok(true) ==>
      var s := status.value;
      var decision := decision.value;
      var r := Record(decision.decision.value, s, response);
      && db.trades == (if db.available
        then old(db.trades) + [TradeRecorder.TradeRowFor(decision, AsDict(r), TradeRecorder.StatusFields(s), market, now)
          .(id := |old(db.trades)| + 1)]
        else old(db.trades))
      && db.marketData == (if db.available && MarketEntries(market).Some?
        then old(db.marketData) + [TradeRecorder.MarketRowFor(MarketEntries(market).value, now)]
        else old(db.marketData))
      && db.reflections == (if Reflects(db.available, r, market)
        then old(db.reflections) + [Reflection.ImmediateRow(|db.trades|, decision, ReflectionMarket(market))]
        else old(db.reflections))
  {
    if status.None? {
      return Ok(false);
    }
    var key := Execution.DecisionKey(decision);
    if key.Err? {
      return Err(key.error);
    }
    var ok := ExecuteDecision(upbit, db, decision.value, status.value, market, response, now);
    executed := Ok(ok);
  }

  /** The routine past the subscript, for a snapshot and a decision string. */
  method ExecuteDecision(
    upbit: Execution.Exchange, db: Database, decision: DecisionRecord, s: Account.InvestmentStatus,
    market: Option<PyValue>, response: Execution.OrderResponse, now: int) returns (executed: bool)
    requires decision.decision.Some?
    requires db.Valid()
    modifies upbit`orders, db`trades, db`marketData, db`reflections
    ensures db.Valid()
    ensures executed == Executes(decision.decision.value, Some(s), response)
    ensures upbit.orders == old(upbit.orders) + Execution.OrdersOf(Execution.PlannedOrder(decision.decision.value, Some(s)))
    ensures !executed ==>
      db.trades == old(db.trades) && db.marketData == old(db.marketData) && db.reflections == old(db.reflections)
    ensures executed ==>
      var r := Record(decision.decision.value, s, response);
      && db.trades == (if db.available
        then old(db.trades) + [TradeRecorder.TradeRowFor(decision, AsDict(r), TradeRecorder.StatusFields(s), market, now)
          .(id := |old(db.trades)| + 1)]
        else old(db.trades))
      && db.marketData == (if db.available && MarketEntries(market).Some?
        then old(db.marketData) + [TradeRecorder.MarketRowFor(MarketEntries(market).value, now)]
        else old(db.marketData))
      && db.reflections == (if Reflects(db.available, r, market)
        then old(db.reflections) + [Reflection.ImmediateRow(|db.trades|, decision, ReflectionMarket(market))]
        else old(db.reflections))
  {
    var d := decision.decision.value;
    Execution.SellIsNotBuy();
    if d == "buy" {
      executed := Buy(upbit, db, decision, s, market, response, now);
    } else if d == "sell" {
      executed := Sell(upbit, db, decision, s, market, response, now);
    } else if d == "hold" {
      var r := ExecutionRecord("hold", s.currentPrice, 0.0, 0.0, 0.0, "", "executed");
      SaveTradeAndCreateReflection(db, decision, r, s, market, now);
      executed := true;
    } else {
      executed := false;
    }
  }

  /** The buy branch (autotrading.py:968-1033). */
  method Buy(
    upbit: Execution.Exchange, db: Database, decision: DecisionRecord, s: Account.InvestmentStatus,
    market: Option<PyValue>, response: Execution.OrderResponse, now: int) returns (executed: bool)
    requires db.Valid()
    modifies upbit`orders, db`trades, db`marketData, db`reflections
    ensures db.Valid()
    ensures executed == Executes("buy", Some(s), response)
    ensures upbit.orders == old(upbit.orders) + Execution.OrdersOf(Execution.PlannedOrder("buy", Some(s)))
    ensures !executed ==>
      db.trades == old(db.trades) && db.marketData == old(db.marketData) && db.reflections == old(db.reflections)
    ensures executed ==>
      var r := Record("buy", s, response);
      && db.trades == (if db.available
        then old(db.trades) + [TradeRecorder.TradeRowFor(decision, AsDict(r), TradeRecorder.StatusFields(s), market, now)
          .(id := |old(db.trades)| + 1)]
        else old(db.trades))
      && db.marketData == (if db.available && MarketEntries(market).Some?
        then old(db.marketData) + [TradeRecorder.MarketRowFor(MarketEntries(market).value, now)]
        else old(db.marketData))
      && db.reflections == (if Reflects(db.available, r, market)
        then old(db.reflections) + [Reflection.ImmediateRow(|db.trades|, decision, ReflectionMarket(market))]
        else old(db.reflections))
  {
    var krw, price := s.krwBalance, s.currentPrice;
    var minTradeAmount := 5000.0;
    if krw < minTradeAmount {
      return false;
    }
    var buyAmount := krw * 0.95;
    if buyAmount < minTradeAmount {
      buyAmount := minTradeAmount;
    }
    var feeRate := 0.0005;
    var feeAmount := buyAmount * feeRate;
    var actualBuyAmount := buyAmount - feeAmount;
    assert buyAmount == Execution.BuyNotional(krw);
    assert Execution.PlannedOrder("buy", Some(s)) == Some(Execution.MarketOrder(Execution.Bid, "KRW-BTC", buyAmount));
    upbit.Submit(Execution.MarketOrder(Execution.Bid, "KRW-BTC", buyAmount));
    if response.Receipt? {
      var r := ExecutionRecord("buy", price, if price > 0.0 then actualBuyAmount / price else 0.0,
        buyAmount, feeAmount, response.uuid.GetOr(""), "executed");
      assert r == Record("buy", s, response);
      SaveTradeAndCreateReflection(db, decision, r, s, market, now);
      executed := true;
    } else {
      executed := false;
    }
  }

  /** The sell branch (autotrading.py:1035-1098). */
  method Sell(
    upbit: Execution.Exchange, db: Database, decision: DecisionRecord, s: Account.InvestmentStatus,
    market: Option<PyValue>, response: Execution.OrderResponse, now: int) returns (executed: bool)
    requires db.Valid()
    modifies upbit`orders, db`trades, db`marketData, db`reflections
    ensures db.Valid()
    ensures executed == Executes("sell", Some(s), response)
    ensures upbit.orders == old(upbit.orders) + Execution.OrdersOf(Execution.PlannedOrder("sell", Some(s)))
    ensures !executed ==>
      db.trades == old(db.trades) && db.marketData == old(db.marketData) && db.reflections == old(db.reflections)
    ensures executed ==>
      var r := Record("sell", s, response);
      && db.trades == (if db.available
        then old(db.trades) + [TradeRecorder.TradeRowFor(decision, AsDict(r), TradeRecorder.StatusFields(s), market, now)
          .(id := |old(db.trades)| + 1)]
        else old(db.trades))
      && db.marketData == (if db.available && MarketEntries(market).Some?
        then old(db.marketData) + [TradeRecorder.MarketRowFor(MarketEntries(market).value, now)]
        else old(db.marketData))
      && db.reflections == (if Reflects(db.available, r, market)
        then old(db.reflections) + [Reflection.ImmediateRow(|db.trades|, decision, ReflectionMarket(market))]
        else old(db.reflections))
  {
    var btc, price := s.btcBalance, s.currentPrice;
    var minTradeAmount := 5000.0;
    Execution.SellIsNotBuy();
    if btc * price < minTradeAmount {
      return false;
    }
    var sellAmount := btc * 0.95;
    if sellAmount * price < minTradeAmount {
      sellAmount := btc;
    }
    var expectedSellAmount := sellAmount * price;
    upbit.Submit(Execution.MarketOrder(Execution.Ask, "KRW-BTC", sellAmount));
    if response.Receipt? {
      var r := ExecutionRecord("sell", price, sellAmount, expectedSellAmount, expectedSellAmount * 0.0005,
        response.uuid.GetOr(""), "executed");
      assert r == Record("sell", s, response);
      SaveTradeAndCreateReflection(db, decision, r, s, market, now);
      executed := true;
    } else {
      executed := false;
    }
  }

  /**
   * This routine and the engine in trading/execution.py send the same
   * order and agree on success, except for a buy at a price of 0 or less:
   * here it is recorded with an amount of 0 and reported as done, there it
   * ends as an error.
   */
  lemma AgreesWithEngine(decision: string, s: Account.InvestmentStatus, response: Execution.OrderResponse)
    ensures Executes(decision, Some(s), response)
      == (Execution.Outcome(decision, Some(s), response).success
          || (decision == "buy" && s.krwBalance >= 5000.0 && response.Receipt? && s.currentPrice <= 0.0))
    ensures (Executes(decision, Some(s), response) && Execution.Outcome(decision, Some(s), response).success
      && decision != "hold") ==>
      var r := Record(decision, s, response);
      var e := Execution.Outcome(decision, Some(s), response);
      r.amount == e.amount && r.totalValue == e.totalValue && r.fee == e.fee && r.orderId == e.orderId
      && r.price == e.price && r.action == e.action
  {
    Execution.SellIsNotBuy();
  }

  /** Without an account snapshot nothing is sent and False is returned. */
  lemma NoStatusReturnsFalse(decision: string, response: Execution.OrderResponse)
    ensures !Executes(decision, None, response)
    ensures Execution.PlannedOrder(decision, None).None?
  {
  }

  /**
   * An accepted buy at a price of 0 or less is recorded with an amount of
   * 0 BTC, not as an error (autotrading.py:1010).
   */
  lemma BuyAtNonPositivePriceRecordsZero(s: Account.InvestmentStatus, uuid: Option<string>)
    requires s.krwBalance >= 5000.0 && s.currentPrice <= 0.0
    ensures Executes("buy", Some(s), Execution.Receipt(uuid))
    ensures Record("buy", s, Execution.Receipt(uuid)).amount == 0.0
    ensures Record("buy", s, Execution.Receipt(uuid)).totalValue >= 5000.0
  {
  }

  /** Only an executed buy or sell is reflected on; a hold is recorded but never reflected on. */
  lemma ReflectsOnlyOnOrders(decision: string, s: Account.InvestmentStatus, response: Execution.OrderResponse,
                             available: bool, market: Option<PyValue>)
    requires Executes(decision, Some(s), response)
    ensures Reflects(available, Record(decision, s, response), market) ==> decision == "buy" || decision == "sell"
    ensures decision == "hold" ==> !Reflects(available, Record(decision, s, response), market)
    ensures ((decision == "buy" || decision == "sell") && available && !MarketRaises(market)
      && Encodable(ReflectionMarket(market))) ==> Reflects(available, Record(decision, s, response), market)
  {
    Execution.SellIsNotBuy();
  }

  /**
   * The reflection is written with `market_data or {}`: a missing or empty
   * market value gives an empty dict, which can always be dumped.
   */
  lemma MissingMarketReflectsOnEmptyDict(market: Option<PyValue>)
    requires market.None? || !Truthy(market.value)
    ensures ReflectionMarket(market) == PyDict([]) && Encodable(ReflectionMarket(market))
    ensures !MarketRaises(market) && MarketEntries(market).None?
  {
  }
}
