// database/trade_recorder.py: building and appending the rows of the
// trades, market_data and system_logs tables, and the all-time statistics.
module TradeRecorder {
  import opened Wrappers
  import opened JsonCleaner
  import opened Ledger
  import DecisionModels
  import Account

  /** An execution_result dict as save_trade reads it; every key may be absent. */
  datatype ExecutionDict = ExecutionDict(
    action: Option<string>, price: Option<real>, amount: Option<real>, totalValue: Option<real>,
    fee: Option<real>, orderId: Option<string>, status: Option<string>)

  /** An investment_status dict as save_trade reads it. */
  datatype StatusDict = StatusDict(krwBalance: Option<real>, btcBalance: Option<real>)

  /** The dict get_investment_status returns, seen through save_trade's keys. */
  function StatusFields(s: Account.InvestmentStatus): (d: StatusDict)
    ensures d.krwBalance == Some(s.krwBalance) && d.btcBalance == Some(s.btcBalance)
  {
    StatusDict(Some(s.krwBalance), Some(s.btcBalance))
  }

  /** The market_data column: NULL for a falsy dict, otherwise the cleaned value that is dumped. */
  function MarketColumn(market: Option<PyValue>): (r: Option<PyValue>)
  {
    if market.Some? && Truthy(market.value) then Some(Clean(market.value)) else None
  }

  /** The row save_trade inserts (database/trade_recorder.py:31-54); the id is filled in by the table. */
  function TradeRowFor(
    decision: DecisionModels.DecisionRecord, exec: ExecutionDict, status: StatusDict,
    market: Option<PyValue>, now: int): (row: TradeRow)
    ensures row.timestamp == now
    ensures row.decision == decision.decision.GetOr("unknown")
    ensures row.reasoning == decision.reasoning.GetOr("")
    ensures row.balanceKrw == status.krwBalance.GetOr(0.0) && row.balanceBtc == status.btcBalance.GetOr(0.0)
  {
    TradeRow(
      0, now, decision.decision.GetOr("unknown"), exec.action.GetOr("none"),
      exec.price.GetOr(0.0), exec.amount.GetOr(0.0), exec.totalValue.GetOr(0.0), exec.fee.GetOr(0.0),
      status.krwBalance.GetOr(0.0), status.btcBalance.GetOr(0.0), exec.orderId.GetOr(""),
      exec.status.GetOr("executed"), decision.confidence.GetOr(0.0), decision.reasoning.GetOr(""),
      MarketColumn(market))
  }

  /** With every key absent the row holds the documented defaults (database/trade_recorder.py:31-43). */
  lemma TradeRowDefaults(now: int)
    ensures var row := TradeRowFor(
      DecisionModels.DecisionRecord(None, None, None, None),
      ExecutionDict(None, None, None, None, None, None, None), StatusDict(None, None), None, now);
      row.decision == "unknown" && row.action == "none" && row.price == 0.0 && row.amount == 0.0
      && row.totalValue == 0.0 && row.fee == 0.0 && row.orderId == "" && row.status == "executed"
      && row.confidence == 0.0 && row.reasoning == "" && row.balanceKrw == 0.0 && row.marketData.None?
  {
  }

  /**
   * A validated model decision carries 'reason', not 'reasoning', so its
   * row stores an empty reasoning whatever the model explained
   * (database/trade_recorder.py:43, analysis/models.py:30).
   */
  lemma ModelDecisionStoresNoReasoning(
    d: DecisionModels.TradingDecision, exec: ExecutionDict, status: StatusDict, market: Option<PyValue>, now: int)
    ensures TradeRowFor(DecisionModels.AsRecord(d), exec, status, market, now).reasoning == ""
    ensures TradeRowFor(DecisionModels.AsRecord(d), exec, status, market, now).decision == d.decision
    ensures TradeRowFor(DecisionModels.AsRecord(d), exec, status, market, now).confidence == d.confidence
  {
  }

  /**
   * The stored market data is always valid JSON: no NaN or infinity at any
   * depth, and nothing json.dumps rejects, so the NULL fallback is never
   * taken (database/trade_recorder.py:46-54).
   */
  lemma StoredMarketDataIsJson(market: Option<PyValue>)
    ensures MarketColumn(market).Some? <==> market.Some? && Truthy(market.value)
    ensures MarketColumn(market).Some? ==>
      NoNonFinite(MarketColumn(market).value) && Encodable(MarketColumn(market).value)
  {
    if market.Some? {
      CleanIsJson(market.value);
    }
  }

  /** save_trade (database/trade_recorder.py:19-77): one row when connected, none otherwise. */
  method SaveTrade(
    db: Database, decision: DecisionModels.DecisionRecord, exec: ExecutionDict, status: StatusDict,
    market: Option<PyValue>, now: int) returns (ok: bool)
    requires db.Valid()
    modifies db`trades
    ensures db.Valid()
    ensures ok == db.available
    ensures db.trades == if ok
      then old(db.trades) + [TradeRowFor(decision, exec, status, market, now).(id := |old(db.trades)| + 1)]
      else old(db.trades)
  {
    var row := TradeRowFor(decision, exec, status, market, now);
    ok := db.InsertTrade(row);
  }

  /** `market_data.get(key, 0)`. */
  function GetOr0(entries: seq<(string, PyValue)>, key: string): (v: PyValue)
    ensures Lookup(entries, key).None? ==> v == PyInt(0)
    ensures Lookup(entries, key).Some? ==> v == Lookup(entries, key).value
  {
    Lookup(entries, key).GetOr(PyInt(0))
  }

  /** The row save_market_data inserts (database/trade_recorder.py:89-100). */
  function MarketRowFor(entries: seq<(string, PyValue)>, now: int): MarketRow
  {
    MarketRow(now,
      GetOr0(entries, "current_price"), GetOr0(entries, "volume_24h"), GetOr0(entries, "change_24h"),
      GetOr0(entries, "rsi"), GetOr0(entries, "macd"), GetOr0(entries, "macd_signal"),
      GetOr0(entries, "bollinger_upper"), GetOr0(entries, "bollinger_lower"),
      GetOr0(entries, "fear_greed_index"), GetOr0(entries, "fear_greed_value"),
      GetOr0(entries, "news_sentiment"))
  }

  /** A dict without the eleven keys stores eleven zeros; one with a key stores its value. */
  lemma MarketRowDefaults(now: int, price: PyValue)
    ensures var row := MarketRowFor([], now);
      row.currentPrice == PyInt(0) && row.rsi == PyInt(0) && row.newsSentiment == PyInt(0)
      && row.fearGreedIndex == PyInt(0) && row.timestamp == now
    ensures MarketRowFor([("current_price", price)], now).currentPrice == price
  {
  }

  /** save_market_data (database/trade_recorder.py:79-122). */
  method SaveMarketData(db: Database, entries: seq<(string, PyValue)>, now: int) returns (ok: bool)
    modifies db`marketData
    ensures ok == db.available
    ensures db.marketData == if ok then old(db.marketData) + [MarketRowFor(entries, now)] else old(db.marketData)
  {
    ok := db.InsertMarketData(MarketRowFor(entries, now));
  }

  /** save_system_log (database/trade_recorder.py:124-150). */
  method SaveSystemLog(db: Database, level: string, message: string, source: Option<string>, now: int)
    returns (ok: bool)
    modifies db`systemLogs
    ensures ok == db.available
    ensures db.systemLogs == if ok then old(db.systemLogs) + [LogRow(now, level, message, source)] else old(db.systemLogs)
  {
    ok := db.InsertSystemLog(LogRow(now, level, message, source));
  }

  datatype TradeStatistics = TradeStatistics(
    totalTrades: nat, decisionCounts: map<string, nat>, totalValue: real, totalFee: real)


  /** get_trade_statistics (database/trade_recorder.py:177-217): None stands for the empty dict returned without a connection. */
  function GetTradeStatistics(connected: bool, trades: seq<TradeRow>): (r: Option<TradeStatistics>)
    ensures r.Some? <==> connected
    ensures r.Some? ==> r.value.totalTrades == |trades|
  {
    if !connected then None
    else Some(TradeStatistics(|trades|, DecisionCounts(trades), SumOf(trades, TotalValueOf), SumOf(trades, FeeOf)))
  }

  /**
   * Counts are grouped by the decision column, and an empty table reports
   * zero sums where SQL gives NULL (database/trade_recorder.py:191-204).
   */
  lemma StatisticsMeaning(trades: seq<TradeRow>)
    ensures var s := GetTradeStatistics(true, trades).value;
      (forall d :: d in s.decisionCounts <==> CountDecision(trades, d) > 0)
      && (forall d :: d in s.decisionCounts ==> s.decisionCounts[d] == CountDecision(trades, d))
    ensures GetTradeStatistics(true, []) == Some(TradeStatistics(0, map[], 0.0, 0.0))
  {
    DecisionCountsExact(trades);
  }

  /** Fees are never negative in the rows the engines write, so neither is their total. */
  lemma TotalFeeNonNegative(trades: seq<TradeRow>)
    requires forall i :: 0 <= i < |trades| ==> trades[i].fee >= 0.0
    ensures GetTradeStatistics(true, trades).value.totalFee >= 0.0
  {
    SumOfNonNegative(trades, FeeOf);
  }
}
