// The MySQL database the bot writes to (schema in database/connection.py):
// each table is a sequence of rows, each INSERT an append, and a missing
// connection makes every write fail. AUTO_INCREMENT trade ids are 1, 2, ...
module Ledger {
  import opened Wrappers
  import opened JsonCleaner

  /** A row of `trades` (database/connection.py:65-83); `timestamp` is an instant in microseconds. */
  datatype TradeRow = TradeRow(
    id: int, timestamp: int, decision: string, action: string,
    price: real, amount: real, totalValue: real, fee: real,
    balanceKrw: real, balanceBtc: real, orderId: string, status: string,
    confidence: real, reasoning: string, marketData: Option<PyValue>)

  /** A row of `market_data`: eleven columns taken from the analysis dict as they are. */
  datatype MarketRow = MarketRow(
    timestamp: int, currentPrice: PyValue, volume24h: PyValue, change24h: PyValue,
    rsi: PyValue, macd: PyValue, macdSignal: PyValue, bollingerUpper: PyValue,
    bollingerLower: PyValue, fearGreedIndex: PyValue, fearGreedValue: PyValue,
    newsSentiment: PyValue)

  datatype LogRow = LogRow(timestamp: int, level: string, message: string, source: Option<string>)

  /** reflection_type ENUM (database/connection.py:123). */
  datatype ReflectionKind = Immediate | Daily | Weekly | Monthly

  /** A row of `trading_reflections`; `tradeId` is a foreign key into `trades`. */
  datatype ReflectionRow = ReflectionRow(
    tradeId: int, kind: ReflectionKind, performance: real, profitLoss: real,
    profitLossPercentage: real, marketConditions: PyValue, decisionQuality: real,
    timing: real, riskManagement: real, aiAnalysis: string,
    improvementSuggestions: string, lessonsLearned: string, nextActions: string)

  /** A row of `performance_metrics`. */
  datatype MetricsRow = MetricsRow(
    periodType: string, periodStart: int, periodEnd: int,
    totalTrades: int, winningTrades: int, losingTrades: int, winRate: real,
    totalProfitLoss: real, totalProfitLossPercentage: real, maxDrawdown: real,
    sharpeRatio: real, averageTradeDuration: int, bestTradeProfit: real, worstTradeLoss: real)

  /** insight_type and priority_level ENUMs (database/connection.py:168,175). */
  datatype InsightKind = Pattern | Strategy | Risk | Timing | Market
  datatype Priority = Low | Medium | High | Critical

  datatype InsightRow = InsightRow(
    kind: InsightKind, title: string, description: string, confidence: real,
    supportingData: PyValue, applicableConditions: PyValue, actionItems: string,
    priority: Priority)

  /** improvement_type and status ENUMs (database/connection.py:186,196). */
  datatype ImprovementKind = Parameter | Condition | TimingChange | RiskChange
  datatype ImprovementStatus = Proposed | Implemented | Validated | Reverted

  datatype ImprovementRow = ImprovementRow(
    kind: ImprovementKind, oldValue: string, newValue: string, reason: string,
    expectedImpact: string, implementationDate: int, validationPeriodDays: int,
    performanceBefore: PyValue, performanceAfter: PyValue, successMetric: real,
    status: ImprovementStatus)

  class Database {
    /** Whether a connection can be had: `get_db_connection()` is not None. */
    var available: bool
    var trades: seq<TradeRow>
    var marketData: seq<MarketRow>
    var systemLogs: seq<LogRow>
    var reflections: seq<ReflectionRow>
    var metrics: seq<MetricsRow>
    var insights: seq<InsightRow>
    var improvements: seq<ImprovementRow>

    /** Trade ids are 1..n in insertion order, and every reflection names an existing trade. */
    ghost predicate Valid()
      reads this
    {
      (forall i :: 0 <= i < |trades| ==> trades[i].id == i + 1)
      && (forall j :: 0 <= j < |reflections| ==> 1 <= reflections[j].tradeId <= |trades|)
    }

    constructor (available: bool)
      ensures Valid() && this.available == available
      ensures trades == [] && marketData == [] && systemLogs == [] && reflections == []
      ensures metrics == [] && insights == [] && improvements == []
    {
      this.available := available;
      trades, marketData, systemLogs, reflections := [], [], [], [];
      metrics, insights, improvements := [], [], [];
    }

    /** INSERT INTO trades: the row gets the next id. */
    method InsertTrade(row: TradeRow) returns (ok: bool)
      requires Valid()
      modifies this`trades
      ensures Valid()
      ensures ok == available
      ensures trades == if ok then old(trades) + [row.(id := |old(trades)| + 1)] else old(trades)
    {
      ok := available;
      if ok {
        trades := trades + [row.(id := |trades| + 1)];
      }
    }

    /** INSERT INTO market_data. */
    method InsertMarketData(row: MarketRow) returns (ok: bool)
      modifies this`marketData
      ensures ok == available
      ensures marketData == if ok then old(marketData) + [row] else old(marketData)
    {
      ok := available;
      if ok {
        marketData := marketData + [row];
      }
    }

    /** INSERT INTO system_logs. */
    method InsertSystemLog(row: LogRow) returns (ok: bool)
      modifies this`systemLogs
      ensures ok == available
      ensures systemLogs == if ok then old(systemLogs) + [row] else old(systemLogs)
    {
      ok := available;
      if ok {
        systemLogs := systemLogs + [row];
      }
    }

    /** INSERT INTO trading_reflections: the foreign key must name an existing trade. */
    method InsertReflection(row: ReflectionRow) returns (ok: bool)
      requires Valid()
      modifies this`reflections
      ensures Valid()
      ensures ok == (available && 1 <= row.tradeId <= |trades|)
      ensures reflections == if ok then old(reflections) + [row] else old(reflections)
    {
      ok := available && 1 <= row.tradeId <= |trades|;
      if ok {
        reflections := reflections + [row];
      }
    }

    /** INSERT INTO performance_metrics. */
    method InsertMetrics(row: MetricsRow) returns (ok: bool)
      modifies this`metrics
      ensures ok == available
      ensures metrics == if ok then old(metrics) + [row] else old(metrics)
    {
      ok := available;
      if ok {
        metrics := metrics + [row];
      }
    }

    /** INSERT INTO learning_insights. */
    method InsertInsight(row: InsightRow) returns (ok: bool)
      modifies this`insights
      ensures ok == available
      ensures insights == if ok then old(insights) + [row] else old(insights)
    {
      ok := available;
      if ok {
        insights := insights + [row];
      }
    }

    /** INSERT INTO strategy_improvements. */
    method InsertImprovement(row: ImprovementRow) returns (ok: bool)
      modifies this`improvements
      ensures ok == available
      ensures improvements == if ok then old(improvements) + [row] else old(improvements)
    {
      ok := available;
      if ok {
        improvements := improvements + [row];
      }
    }
  }

  /** Number of rows whose decision column is `d`. */
  function CountDecision(rows: seq<TradeRow>, d: string): nat
  {
    if rows == [] then 0
    else CountDecision(rows[..|rows| - 1], d) + (if rows[|rows| - 1].decision == d then 1 else 0)
  }

  /** `SELECT decision, COUNT(*) ... GROUP BY decision`, as a dict. */
  function DecisionCounts(rows: seq<TradeRow>): map<string, nat>
  {
    if rows == [] then map[]
    else
      var m := DecisionCounts(rows[..|rows| - 1]);
      var d := rows[|rows| - 1].decision;
      m[d := (if d in m then m[d] else 0) + 1]
  }

  /** Each decision present gets its row count, and no other key appears. */
  lemma {:induction false} DecisionCountsExact(rows: seq<TradeRow>)
    ensures forall d :: d in DecisionCounts(rows) <==> CountDecision(rows, d) > 0
    ensures forall d :: d in DecisionCounts(rows) ==> DecisionCounts(rows)[d] == CountDecision(rows, d)
  {
    if rows != [] {
      DecisionCountsExact(rows[..|rows| - 1]);
    }
  }

  function TotalValueOf(r: TradeRow): real { r.totalValue }
  function FeeOf(r: TradeRow): real { r.fee }

  /** `SUM(column)` over the rows, with the empty sum (SQL NULL mapped by `or 0`) as 0. */
  function SumOf(rows: seq<TradeRow>, column: TradeRow -> real): real
  {
    if rows == [] then 0.0 else SumOf(rows[..|rows| - 1], column) + column(rows[|rows| - 1])
  }

  /** A sum over rows whose column is never negative is never negative. */
  lemma {:induction false} SumOfNonNegative(rows: seq<TradeRow>, column: TradeRow -> real)
    requires forall i :: 0 <= i < |rows| ==> column(rows[i]) >= 0.0
    ensures SumOf(rows, column) >= 0.0
  {
    if rows != [] {
      SumOfNonNegative(rows[..|rows| - 1], column);
    }
  }
}

