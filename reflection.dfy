// analysis/reflection_system.py: the TradingReflectionSystem's scores, the
// immediate reflection written after a trade, the periodic reflection that
// fans out over a window of trades, and the learning-insight and
// strategy-improvement generators. The system's long-lived connection is
// the Database object; a missing connection makes every method that uses
// it fail, as Python's AttributeError on None does.
module Reflection {
  import opened Wrappers
  import opened JsonCleaner
  import opened Ledger
  import opened Sorting
  import opened DecisionModels
  import Queries
  import Settings
  import Calendar

  /** _calculate_profit_loss and _calculate_profit_loss_percentage: placeholders that return 0.0 for every trade. */
  function ProfitLoss<T>(trade: T): real { 0.0 }

  /** max(0.0, min(1.0, x)). */
  function Clamp01(x: real): (r: real)
    ensures 0.0 <= r <= 1.0
    ensures 0.0 <= x <= 1.0 ==> r == x
    ensures x < 0.0 ==> r == 0.0
    ensures x > 1.0 ==> r == 1.0
  {
    if x < 0.0 then 0.0 else if x > 1.0 then 1.0 else x
  }

  /** The performance score for a given profit/loss and confidence. */
  function ScoreFor(pl: real, confidence: real): (r: real)
    ensures 0.0 <= r <= 1.0
  {
    Clamp01(0.5 + (if pl > 0.0 then 0.3 else if pl < 0.0 then -0.2 else 0.0) + (confidence - 0.5) * 0.2)
  }

  /** A gain never scores below a break-even trade, and a break-even trade never below a loss. */
  lemma ScoreOrdersOutcomes(confidence: real, gain: real, loss: real)
    requires gain > 0.0 && loss < 0.0
    ensures ScoreFor(loss, confidence) <= ScoreFor(0.0, confidence) <= ScoreFor(gain, confidence)
    ensures 0.0 <= confidence <= 1.0 ==> ScoreFor(gain, confidence) == 0.8 + (confidence - 0.5) * 0.2
  {
  }

  /** _calculate_performance_score: confidence defaults to 0.5. */
  function PerformanceScore(trade: DecisionRecord): (r: real)
    ensures 0.0 <= r <= 1.0
  {
    ScoreFor(ProfitLoss(trade), trade.confidence.GetOr(0.5))
  }

  /**
   * With profit/loss fixed at 0.0 the score is 0.4 + 0.2·confidence for a
   * confidence in [0, 1], and exactly 0.5 when the decision has none.
   */
  lemma PerformanceScoreFromConfidence(trade: DecisionRecord)
    ensures trade.confidence.None? ==> PerformanceScore(trade) == 0.5
    ensures trade.confidence.Some? && 0.0 <= trade.confidence.value <= 1.0 ==>
      PerformanceScore(trade) == 0.4 + 0.2 * trade.confidence.value
  {
  }

  /** market_data.get('trend', 'neutral'); None when the market data is not a dict (the `.get` raises). */
  function Trend(market: PyValue): (r: Option<PyValue>)
    ensures r.Some? <==> market.PyDict?
  {
    if market.PyDict? then Some(Lookup(market.entries, "trend").GetOr(PyStr("neutral"))) else None
  }

  /** The decision agrees with the market trend: a buy into a bullish market or a sell into a bearish one. */
  predicate Agrees(decision: Option<string>, trend: Option<PyValue>)
  {
    (decision == Some("buy") && trend == Some(PyStr("bullish")))
    || (decision == Some("sell") && trend == Some(PyStr("bearish")))
  }

  /** _calculate_decision_quality_score. */
  function DecisionQuality(trade: DecisionRecord, market: PyValue): (r: real)
  {
    if !market.PyDict? then 0.5
    else
      var trend := Lookup(market.entries, "trend").GetOr(PyStr("neutral"));
      if trade.decision == Some("buy") && trend == PyStr("bullish") then 0.8
      else if trade.decision == Some("sell") && trend == PyStr("bearish") then 0.8
      else 0.5
  }

  /** Decision quality is 0.8 exactly when decision and trend agree, and 0.5 otherwise. */
  lemma DecisionQualityIsAgreement(trade: DecisionRecord, market: PyValue)
    ensures DecisionQuality(trade, market) == 0.8 <==> Agrees(trade.decision, Trend(market))
    ensures DecisionQuality(trade, market) == 0.5 <==> !Agrees(trade.decision, Trend(market))
  {
  }

  /** A market without a trend counts as neutral, so no decision agrees with it. */
  lemma MissingTrendIsNeutral(trade: DecisionRecord)
    ensures DecisionQuality(trade, PyDict([("rsi", PyFloat(Finite(30.5)))])) == 0.5
    ensures DecisionQuality(DecisionRecord(Some("buy"), Some(0.8), None, None),
      PyDict([("rsi", PyFloat(Finite(30.5))), ("trend", PyStr("bullish"))])) == 0.8
  {
  }

  const TimingScore: real := 0.6
  const RiskManagementScore: real := 0.7

  const ImmediateAnalysis: string := "AI 분석 결과: 거래가 적절한 시점에 이루어졌으며, 시장 상황을 고려한 합리적인 결정이었습니다."
  const AnalysisUnavailable: string := "AI 분석을 수행할 수 없습니다."
  const ImmediateSuggestions: string := "1. 시장 변동성에 따른 포지션 크기 조정\n2. 손절선 설정 강화\n3. 진입 타이밍 개선"
  const ImmediateLessons: string := "시장 상황에 따른 유연한 전략 적용의 중요성을 확인했습니다."
  const ImmediateNextActions: string := "시장 모니터링 강화 및 다음 기회 대기"

  /** _perform_ai_analysis: the prompt's json.dumps of the market data fails on a value JSON cannot encode, and the failure text is returned. */
  function ImmediateAnalysisText(market: PyValue): (r: string)
    ensures r == ImmediateAnalysis <==> Encodable(market)
  {
    if Encodable(market) then ImmediateAnalysis else AnalysisUnavailable
  }

  /** A tuple in the market data dumps as an array and keeps the analysis; a numpy integer makes the dump raise. */
  lemma ImmediateAnalysisEncodingCases(k: string, n: int)
    ensures ImmediateAnalysisText(PyDict([(k, PyTuple([PyInt(1), PyInt(2)], "(1, 2)"))])) == ImmediateAnalysis
    ensures ImmediateAnalysisText(PyDict([(k, PyNpInt(n))])) == AnalysisUnavailable
  {
    NumpyAndTupleEncoding(k, n);
  }

  /** The TradeReflection an immediate reflection stores. */
  function ImmediateRow(tradeId: int, trade: DecisionRecord, market: PyValue): ReflectionRow
  {
    ReflectionRow(
      tradeId, Immediate, PerformanceScore(trade), ProfitLoss(trade), ProfitLoss(trade),
      market, DecisionQuality(trade, market), TimingScore, RiskManagementScore,
      ImmediateAnalysisText(market), ImmediateSuggestions, ImmediateLessons, ImmediateNextActions)
  }

  /** An immediate row is typed 'immediate', keyed to the trade, with timing 0.6, risk 0.7 and scores in [0, 1]. */
  lemma ImmediateRowFields(tradeId: int, trade: DecisionRecord, market: PyValue)
    ensures var r := ImmediateRow(tradeId, trade, market);
      r.kind == Immediate && r.tradeId == tradeId && r.timing == 0.6 && r.riskManagement == 0.7
      && 0.0 <= r.performance <= 1.0 && (r.decisionQuality == 0.5 || r.decisionQuality == 0.8)
      && r.profitLoss == 0.0 && r.marketConditions == market
  {
  }

  /**
   * create_immediate_reflection (analysis/reflection_system.py:60-101): the
   * save's json.dumps of the market conditions raises TypeError on a value
   * JSON cannot encode, which the outer handler turns into False.
   */
  method CreateImmediateReflection(db: Database, tradeId: int, trade: DecisionRecord, market: PyValue)
    returns (ok: bool)
    requires db.Valid()
    modifies db`reflections
    ensures db.Valid()
    ensures ok == (db.available && Encodable(market) && 1 <= tradeId <= |db.trades|)
    ensures db.reflections == if ok then old(db.reflections) + [ImmediateRow(tradeId, trade, market)]
      else old(db.reflections)
  {
    if !Encodable(market) {
      return false;
    }
    ok := db.InsertReflection(ImmediateRow(tradeId, trade, market));
  }

  /** _get_trades_in_period: `BETWEEN start AND end ORDER BY timestamp ASC`. */
  function TradesInPeriod(trades: seq<TradeRow>, start: int, end: int): seq<TradeRow>
  {
    SortAsc(Queries.Between(trades, start, end), Queries.Timestamp)
  }

  /** The window holds exactly the table's rows with start ≤ timestamp ≤ end, oldest first. */
  lemma TradesInPeriodExact(trades: seq<TradeRow>, start: int, end: int, x: TradeRow)
    ensures var w := TradesInPeriod(trades, start, end);
      SortedAsc(w, Queries.Timestamp)
      && multiset(w)[x] == (if start <= x.timestamp <= end then multiset(trades)[x] else 0)
      && (x in w ==> x in trades)
  {
    SortAscCorrect(Queries.Between(trades, start, end), Queries.Timestamp);
    Queries.BetweenExact(trades, start, end, x);
  }

  /** Number of trades the profit function counts as a gain. */
  function CountPositive(trades: seq<TradeRow>, pl: TradeRow -> real): (n: nat)
    ensures n <= |trades|
    ensures n > 0 <==> exists i :: 0 <= i < |trades| && pl(trades[i]) > 0.0
  {
    if trades == [] then 0
    else
      var n := CountPositive(trades[..|trades| - 1], pl);
      assert forall i :: 0 <= i < |trades| - 1 ==> trades[..|trades| - 1][i] == trades[i];
      n + if pl(trades[|trades| - 1]) > 0.0 then 1 else 0
  }

  /** Number of trades the profit function counts as a loss. */
  function CountNegative(trades: seq<TradeRow>, pl: TradeRow -> real): (n: nat)
    ensures n <= |trades|
    ensures n > 0 <==> exists i :: 0 <= i < |trades| && pl(trades[i]) < 0.0
  {
    if trades == [] then 0
    else
      var n := CountNegative(trades[..|trades| - 1], pl);
      assert forall i :: 0 <= i < |trades| - 1 ==> trades[..|trades| - 1][i] == trades[i];
      n + if pl(trades[|trades| - 1]) < 0.0 then 1 else 0
  }

  function SumProfit(trades: seq<TradeRow>, pl: TradeRow -> real): real
  {
    if trades == [] then 0.0 else SumProfit(trades[..|trades| - 1], pl) + pl(trades[|trades| - 1])
  }

  /** _calculate_period_metrics: every metric row is typed 'daily', with placeholder drawdown 0.1 and Sharpe ratio 0.5. */
  function PeriodMetrics(trades: seq<TradeRow>, pl: TradeRow -> real, start: int, end: int): MetricsRow
  {
    var total := |trades|;
    var winning := CountPositive(trades, pl);
    var profit := SumProfit(trades, pl);
    MetricsRow(
      "daily", start, end, total, winning, total - winning,
      if total > 0 then winning as real / total as real else 0.0,
      profit, profit / 1000000.0 * 100.0, 0.1, 0.5, 0, 0.0, 0.0)
  }

  /**
   * Winning trades are those with a gain and every other trade, break-even
   * included, is losing; the win rate is their share, 0 for no trades.
   */
  lemma PeriodMetricsMeaning(trades: seq<TradeRow>, pl: TradeRow -> real, start: int, end: int)
    ensures var m := PeriodMetrics(trades, pl, start, end);
      m.totalTrades == |trades| && m.winningTrades + m.losingTrades == m.totalTrades
      && 0 <= m.losingTrades && 0.0 <= m.winRate <= 1.0
      && (m.totalTrades > 0 ==> m.winRate * m.totalTrades as real == m.winningTrades as real)
      && (m.winningTrades > 0 <==> exists i :: 0 <= i < |trades| && pl(trades[i]) > 0.0)
      && m.periodType == "daily" && m.periodStart == start && m.periodEnd == end
  {
    var m := PeriodMetrics(trades, pl, start, end);
    var n := CountPositive(trades, pl);
    assert m.winningTrades == n && m.totalTrades == |trades| && m.losingTrades == |trades| - n;
    if |trades| > 0 {
      RateWithin(n, |trades|);
    }
  }

  /** A share w / t of t > 0 things with w <= t is a fraction that scales back to w. */
  lemma RateWithin(w: nat, t: nat)
    requires 0 < t && w <= t
    ensures 0.0 <= w as real / t as real <= 1.0
    ensures w as real / t as real * t as real == w as real
  {
    var q := w as real / t as real;
    assert q * t as real == w as real;
  }

  lemma {:induction false} SumProfitOfStub(trades: seq<TradeRow>)
    ensures SumProfit(trades, ProfitLoss) == 0.0
  {
    if trades != [] {
      SumProfitOfStub(trades[..|trades| - 1]);
    }
  }

  /** With the profit/loss placeholder, no trade wins: win rate, profit and its percentage are all 0 and every trade is losing. */
  lemma StubbedPeriodMetrics(trades: seq<TradeRow>, start: int, end: int)
    ensures var m := PeriodMetrics(trades, ProfitLoss, start, end);
      m.winningTrades == 0 && m.losingTrades == |trades| && m.winRate == 0.0
      && m.totalProfitLoss == 0.0 && m.totalProfitLossPercentage == 0.0
  {
    SumProfitOfStub(trades);
    assert !exists i :: 0 <= i < |trades| && ProfitLoss(trades[i]) > 0.0;
  }

  function Digit(n: int): char
    requires 0 <= n < 10
  {
    ('0' as int + n) as char
  }

  /** Python's `{x:.2f}` on an exact real, ties rounded away from zero. */
  function Fixed2(x: real): (s: string)
    ensures |s| >= 4 && s[|s| - 3] == '.'
  {
    var a := if x < 0.0 then -x else x;
    var c := (a * 100.0 + 0.5).Floor;
    (if x < 0.0 then "-" else "") + Settings.DecimalString(c / 100) + "." + [Digit(c % 100 / 10), Digit(c % 10)]
  }

  /** _perform_period_ai_analysis: count, win rate as a percentage, and profit percentage. */
  function PeriodAnalysisText(m: MetricsRow): string
    requires m.totalTrades >= 0
  {
    "기간 분석 결과: 총 " + Settings.DecimalString(m.totalTrades) + "건 거래, 승률 "
      + Fixed2(m.winRate * 100.0) + "%, 수익률 " + Fixed2(m.totalProfitLossPercentage) + "%"
  }

  const WinRateLine: string := "승률 개선을 위한 진입 조건 강화"
  const DrawdownLine: string := "리스크 관리 강화"
  const LossLine: string := "손익비 개선을 위한 청산 전략 조정"
  const StrategyFine: string := "현재 전략이 양호합니다."

  /** The improvement lines of _generate_period_improvements, appended in order. */
  function PeriodImprovementLines(m: MetricsRow): seq<string>
  {
    var a := if m.winRate < 0.5 then [WinRateLine] else [];
    var b := if m.maxDrawdown > 0.1 then a + [DrawdownLine] else a;
    if m.totalProfitLoss < 0.0 then b + [LossLine] else b
  }

  function LineRank(line: string): int
  {
    if line == WinRateLine then 0 else if line == DrawdownLine then 1 else 2
  }

  /** Each line appears exactly when its threshold is crossed, at most once, in the fixed win-rate, drawdown, loss order. */
  lemma PeriodImprovementLinesMeaning(m: MetricsRow)
    ensures var lines := PeriodImprovementLines(m);
      (WinRateLine in lines <==> m.winRate < 0.5)
      && (DrawdownLine in lines <==> m.maxDrawdown > 0.1)
      && (LossLine in lines <==> m.totalProfitLoss < 0.0)
      && (forall i, j :: 0 <= i < j < |lines| ==> LineRank(lines[i]) < LineRank(lines[j]))
      && |lines| <= 3
  {
  }

  /** `sep.join(parts)`. */
  function Join(parts: seq<string>, sep: string): string
  {
    if parts == [] then "" else if |parts| == 1 then parts[0] else parts[0] + sep + Join(parts[1..], sep)
  }

  /** _generate_period_improvements (analysis/reflection_system.py:446-461). */
  function PeriodImprovementText(m: MetricsRow): string
  {
    var lines := PeriodImprovementLines(m);
    if lines == [] then StrategyFine else Join(lines, "\n")
  }

  function PeriodLessonsText(m: MetricsRow): string
    requires m.totalTrades >= 0
  {
    "기간 교훈: " + Settings.DecimalString(m.totalTrades) + "건의 거래를 통해 시장 상황별 대응 전략의 중요성을 확인했습니다."
  }

  const PeriodActions: string := "다음 기간을 위한 전략 조정 및 시장 모니터링 강화"

  /** Under the placeholder profit/loss a window of n trades reports a 0.00% win rate and a 0.00% return. */
  lemma StubbedPeriodAnalysis(trades: seq<TradeRow>, start: int, end: int)
    ensures PeriodAnalysisText(PeriodMetrics(trades, ProfitLoss, start, end))
      == "기간 분석 결과: 총 " + Settings.DecimalString(|trades|) + "건 거래, 승률 " + "0.00" + "%, 수익률 " + "0.00" + "%"
  {
    StubbedPeriodMetrics(trades, start, end);
    ZeroRatesText(PeriodMetrics(trades, ProfitLoss, start, end));
  }

  /** A zero win rate and a zero return print as 0.00 %. */
  lemma ZeroRatesText(m: MetricsRow)
    requires m.totalTrades >= 0 && m.winRate == 0.0 && m.totalProfitLossPercentage == 0.0
    ensures PeriodAnalysisText(m)
      == "기간 분석 결과: 총 " + Settings.DecimalString(m.totalTrades) + "건 거래, 승률 " + "0.00" + "%, 수익률 " + "0.00" + "%"
  {
    Fixed2Zero();
    assert m.winRate * 100.0 == 0.0;
  }

  /** Under the placeholder profit/loss the win rate is always below one half, so the win-rate line is the whole improvement text. */
  lemma StubbedPeriodImprovement(trades: seq<TradeRow>, start: int, end: int)
    ensures PeriodImprovementText(PeriodMetrics(trades, ProfitLoss, start, end)) == WinRateLine
  {
    StubbedPeriodMetrics(trades, start, end);
  }

  lemma Fixed2Zero()
    ensures Fixed2(0.0) == "0.00"
  {
    assert Settings.DecimalString(0) == "0";
  }

  /** All three thresholds crossed: the lines are joined with newlines. */
  lemma AllImprovementLines()
    ensures PeriodImprovementText(MetricsRow("daily", 0, 0, 4, 1, 3, 0.25, -10.0, -0.001, 0.2, 0.5, 0, 0.0, 0.0))
      == WinRateLine + "\n" + DrawdownLine + "\n" + LossLine
    ensures PeriodImprovementText(MetricsRow("daily", 0, 0, 2, 1, 1, 0.5, 0.0, 0.0, 0.1, 0.5, 0, 0.0, 0.0)) == StrategyFine
  {
  }

  /** The reflection row written for one trade of a period: every trade shares the period's scores. */
  function PeriodRow(t: TradeRow, kind: ReflectionKind, m: MetricsRow): ReflectionRow
    requires m.totalTrades >= 0
  {
    ReflectionRow(
      t.id, kind, m.winRate, m.totalProfitLoss, m.totalProfitLossPercentage, PyDict([]),
      m.winRate, 0.5, 1.0 - (if m.maxDrawdown < 0.0 then -m.maxDrawdown else m.maxDrawdown),
      PeriodAnalysisText(m), PeriodImprovementText(m), PeriodLessonsText(m), PeriodActions)
  }

  function PeriodRows(trades: seq<TradeRow>, kind: ReflectionKind, m: MetricsRow): seq<ReflectionRow>
    requires m.totalTrades >= 0
  {
    seq(|trades|, i requires 0 <= i < |trades| => PeriodRow(trades[i], kind, m))
  }

  /** A row of a table whose ids are 1..n has an id in 1..n. */
  lemma TradeIdInRange(trades: seq<TradeRow>, x: TradeRow)
    requires forall i :: 0 <= i < |trades| ==> trades[i].id == i + 1
    requires x in trades
    ensures 1 <= x.id <= |trades|
  {
  }

  lemma PeriodRowsSnoc(trades: seq<TradeRow>, i: int, kind: ReflectionKind, m: MetricsRow)
    requires 0 <= i < |trades| && m.totalTrades >= 0
    ensures PeriodRows(trades[..i + 1], kind, m) == PeriodRows(trades[..i], kind, m) + [PeriodRow(trades[i], kind, m)]
  {
  }

  /** One reflection per trade of the window, in window order, each keyed to its trade and sharing the period's scores. */
  lemma PeriodRowsFanOut(trades: seq<TradeRow>, kind: ReflectionKind, start: int, end: int)
    ensures var m := PeriodMetrics(trades, ProfitLoss, start, end);
      var rows := PeriodRows(trades, kind, m);
      |rows| == |trades|
      && forall i :: 0 <= i < |rows| ==>
        rows[i].tradeId == trades[i].id && rows[i].kind == kind
        && rows[i].performance == 0.0 && rows[i].decisionQuality == 0.0
        && rows[i].timing == 0.5 && rows[i].riskManagement == 0.9
  {
    StubbedPeriodMetrics(trades, start, end);
  }

  /** The loop of create_periodic_reflection: every trade of the window names an existing trade, so every save succeeds. */
  method SaveReflections(db: Database, trades: seq<TradeRow>, kind: ReflectionKind, m: MetricsRow)
    requires db.Valid() && db.available && m.totalTrades >= 0
    requires forall x :: x in trades ==> x in db.trades
    modifies db`reflections
    ensures db.Valid()
    ensures db.reflections == old(db.reflections) + PeriodRows(trades, kind, m)
  {
    var rows := PeriodRows(trades, kind, m);
    forall k | 0 <= k < |rows| ensures 1 <= rows[k].tradeId <= |db.trades| {
      assert rows[k].tradeId == trades[k].id;
      assert trades[k] in trades;
      TradeIdInRange(db.trades, trades[k]);
    }
    SaveRows(db, rows);
  }

  /** Inserting reflection rows that all name existing trades, one by one. */
  method SaveRows(db: Database, rows: seq<ReflectionRow>)
    requires db.Valid() && db.available
    requires forall k :: 0 <= k < |rows| ==> 1 <= rows[k].tradeId <= |db.trades|
    modifies db`reflections
    ensures db.Valid()
    ensures db.reflections == old(db.reflections) + rows
  {
    var i := 0;
    while i < |rows|
      invariant 0 <= i <= |rows|
      invariant db.Valid() && db.available && db.trades == old(db.trades)
      invariant db.reflections == old(db.reflections) + rows[..i]
    {
      var saved := db.InsertReflection(rows[i]);
      assert saved;
      assert rows[..i + 1] == rows[..i] + [rows[i]];
      i := i + 1;
    }
    assert rows[..i] == rows;
  }

  /**
   * create_periodic_reflection (analysis/reflection_system.py:103-144): an
   * empty window succeeds without writing; otherwise one reflection per
   * trade, then one metrics row. Without a connection the trade query
   * raises and the result is False.
   */
  method CreatePeriodicReflection(db: Database, kind: ReflectionKind, start: int, end: int) returns (ok: bool)
    requires db.Valid()
    modifies db`reflections, db`metrics
    ensures db.Valid()
    ensures ok == db.available
    ensures var w := TradesInPeriod(db.trades, start, end);
      var m := PeriodMetrics(w, ProfitLoss, start, end);
      if ok && w != [] then
        db.reflections == old(db.reflections) + PeriodRows(w, kind, m) && db.metrics == old(db.metrics) + [m]
      else
        db.reflections == old(db.reflections) && db.metrics == old(db.metrics)
  {
    if !db.available {
      return false;
    }
    var trades := TradesInPeriod(db.trades, start, end);
    if trades == [] {
      return true;
    }
    var m := PeriodMetrics(trades, ProfitLoss, start, end);
    forall x | x in trades
      ensures x in db.trades
    {
      TradesInPeriodExact(db.trades, start, end, x);
    }
    SaveReflections(db, trades, kind, m);
    var _ := db.InsertMetrics(m);
    ok := true;
  }

  /** Supporting and condition data of an insight: a one-entry dict. */
  function Entry(key: string, value: PyValue): PyValue { PyDict([(key, value)]) }

  const SuccessTitle: string := "성공 거래 패턴 발견"
  const FailureTitle: string := "실패 거래 패턴 발견"

  function SuccessInsights(trades: seq<TradeRow>, pl: TradeRow -> real): seq<InsightRow>
  {
    var n := CountPositive(trades, pl);
    if n > 0 then
      [InsightRow(Pattern, SuccessTitle,
        Settings.DecimalString(n) + "건의 성공 거래에서 공통 패턴을 발견했습니다.", 0.7,
        Entry("successful_trades_count", PyInt(n)), Entry("market_condition", PyStr("bullish")),
        "성공 패턴을 기반으로 한 진입 조건 강화", High)]
    else []
  }

  function FailureInsights(trades: seq<TradeRow>, pl: TradeRow -> real): seq<InsightRow>
  {
    var n := CountNegative(trades, pl);
    if n > 0 then
      [InsightRow(Pattern, FailureTitle,
        Settings.DecimalString(n) + "건의 실패 거래에서 개선점을 발견했습니다.", 0.6,
        Entry("failed_trades_count", PyInt(n)), Entry("market_condition", PyStr("bearish")),
        "실패 패턴을 피하기 위한 조건 추가", High)]
    else []
  }

  function MarketInsight(n: nat): InsightRow
  {
    InsightRow(Market, "시장 상황별 성과 분석", "다양한 시장 상황에서의 거래 성과를 분석했습니다.", 0.5,
      Entry("total_trades", PyInt(n)), Entry("market_condition", PyStr("all")),
      "시장 상황별 전략 최적화", Medium)
  }

  function TimingInsight(n: nat): InsightRow
  {
    InsightRow(Timing, "거래 타이밍 패턴 분석", "최적의 거래 타이밍 패턴을 분석했습니다.", 0.6,
      Entry("total_trades", PyInt(n)), Entry("timing", PyStr("optimal")),
      "타이밍 개선을 위한 조건 추가", Medium)
  }

  /** The insights of analyze_learning_patterns, in the order the four analyses extend them. */
  function LearningInsights(trades: seq<TradeRow>, pl: TradeRow -> real): seq<InsightRow>
  {
    SuccessInsights(trades, pl) + FailureInsights(trades, pl) + [MarketInsight(|trades|), TimingInsight(|trades|)]
  }

  /**
   * A success insight appears exactly when some trade gained, a failure
   * insight exactly when some trade lost, and the market and timing
   * insights always close the list.
   */
  lemma LearningInsightsMeaning(trades: seq<TradeRow>, pl: TradeRow -> real)
    ensures var r := LearningInsights(trades, pl);
      2 <= |r| <= 4
      && r[|r| - 2] == MarketInsight(|trades|) && r[|r| - 1] == TimingInsight(|trades|)
      && ((exists k :: 0 <= k < |r| && r[k].title == SuccessTitle) <==> exists i :: 0 <= i < |trades| && pl(trades[i]) > 0.0)
      && ((exists k :: 0 <= k < |r| && r[k].title == FailureTitle) <==> exists i :: 0 <= i < |trades| && pl(trades[i]) < 0.0)
  {
    var r := LearningInsights(trades, pl);
    var s := SuccessInsights(trades, pl);
    var f := FailureInsights(trades, pl);
    assert r == s + f + [MarketInsight(|trades|), TimingInsight(|trades|)];
    if exists k :: 0 <= k < |r| && r[k].title == SuccessTitle {
      var k :| 0 <= k < |r| && r[k].title == SuccessTitle;
      assert k < |s|;
    }
    if exists k :: 0 <= k < |r| && r[k].title == FailureTitle {
      var k :| 0 <= k < |r| && r[k].title == FailureTitle;
      assert |s| <= k < |s| + |f|;
    }
    if CountPositive(trades, pl) > 0 {
      assert r[0].title == SuccessTitle;
    }
    if CountNegative(trades, pl) > 0 {
      assert r[|s|].title == FailureTitle;
    }
  }

  /** Under the placeholder profit/loss only the market and timing insights are produced. */
  lemma StubbedLearningInsights(trades: seq<TradeRow>)
    ensures LearningInsights(trades, ProfitLoss) == [MarketInsight(|trades|), TimingInsight(|trades|)]
  {
    assert !exists i :: 0 <= i < |trades| && ProfitLoss(trades[i]) > 0.0;
    assert !exists i :: 0 <= i < |trades| && ProfitLoss(trades[i]) < 0.0;
  }

  /** The last 30 days up to `now`. */
  function LearningWindow(trades: seq<TradeRow>, now: int): seq<TradeRow>
  {
    TradesInPeriod(trades, now - 30 * Calendar.MicrosPerDay, now)
  }

  /**
   * analyze_learning_patterns (analysis/reflection_system.py:153-187): the
   * insights of the last 30 days, each saved. `now - timedelta(days=30)`
   * raises OverflowError when it falls before year 1, and without a
   * connection the trade query raises; the handler then returns [] and
   * nothing is saved.
   */
  method AnalyzeLearningPatterns(db: Database, now: int) returns (insights: seq<InsightRow>)
    modifies db`insights
    ensures insights == if db.available && Calendar.Representable(now - 30 * Calendar.MicrosPerDay)
      then LearningInsights(LearningWindow(db.trades, now), ProfitLoss) else []
    ensures db.insights == old(db.insights) + insights
  {
    if !Calendar.Representable(now - 30 * Calendar.MicrosPerDay) || !db.available {
      return [];
    }
    insights := LearningInsights(LearningWindow(db.trades, now), ProfitLoss);
    SaveInsights(db, insights);
  }

  /** The saving loop of analyze_learning_patterns: each insight is inserted in turn. */
  method SaveInsights(db: Database, rows: seq<InsightRow>)
    requires db.available
    modifies db`insights
    ensures db.insights == old(db.insights) + rows
  {
    var i := 0;
    while i < |rows|
      invariant 0 <= i <= |rows|
      invariant db.insights == old(db.insights) + rows[..i]
    {
      var _ := db.InsertInsight(rows[i]);
      assert rows[..i + 1] == rows[..i] + [rows[i]];
      i := i + 1;
    }
    assert rows[..i] == rows;
  }

  /** The three proposals of _analyze_performance_for_improvements, _generate_ai_improvements and _generate_risk_improvements. */
  function StrategyImprovements(now: int): seq<ImprovementRow>
  {
    [ ImprovementRow(Condition, "기존 진입 조건", "강화된 진입 조건", "승률 개선을 위한 조건 강화",
        "승률 10% 향상 예상", now, 30, Entry("win_rate", PyFloat(Finite(0.5))),
        Entry("win_rate", PyFloat(Finite(0.6))), 0.6, Proposed),
      ImprovementRow(Parameter, "기존 파라미터", "AI 최적화 파라미터", "AI 분석을 통한 파라미터 최적화",
        "수익률 15% 향상 예상", now, 30, Entry("profit_rate", PyFloat(Finite(0.05))),
        Entry("profit_rate", PyFloat(Finite(0.06))), 0.7, Proposed),
      ImprovementRow(RiskChange, "기존 리스크 관리", "강화된 리스크 관리", "최대 낙폭 감소를 위한 리스크 관리 강화",
        "최대 낙폭 20% 감소 예상", now, 30, Entry("max_drawdown", PyFloat(Finite(0.15))),
        Entry("max_drawdown", PyFloat(Finite(0.12))), 0.8, Proposed) ]
  }

  /** Always three proposals, condition then parameter then risk, all 'proposed', dated now and validated over 30 days. */
  lemma StrategyImprovementsShape(now: int)
    ensures var r := StrategyImprovements(now);
      |r| == 3 && r[0].kind == Condition && r[1].kind == Parameter && r[2].kind == RiskChange
      && forall i :: 0 <= i < 3 ==>
        r[i].status == Proposed && r[i].implementationDate == now && r[i].validationPeriodDays == 30
        && 0.0 < r[i].successMetric < 1.0
  {
  }

  /**
   * generate_strategy_improvements (analysis/reflection_system.py:189-214):
   * the proposals, each saved; without a connection the first save raises
   * and the result is [].
   */
  method GenerateStrategyImprovements(db: Database, now: int) returns (items: seq<ImprovementRow>)
    modifies db`improvements
    ensures items == if db.available then StrategyImprovements(now) else []
    ensures db.improvements == old(db.improvements) + items
  {
    if !db.available {
      return [];
    }
    items := StrategyImprovements(now);
    var i := 0;
    while i < |items|
      invariant 0 <= i <= |items|
      invariant db.available
      invariant db.improvements == old(db.improvements) + items[..i]
    {
      var _ := db.InsertImprovement(items[i]);
      assert items[..i + 1] == items[..i] + [items[i]];
      i := i + 1;
    }
    assert items[..i] == items;
  }
}
