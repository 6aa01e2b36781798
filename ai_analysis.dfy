// analysis/ai_analysis.py: the news and orderbook parts of the market
// snapshot given to the model, the market-sentiment reply shape, the
// trading-performance statistics and the improvement suggestions.
module AiAnalysis {
  import opened Wrappers
  import opened JsonCleaner
  import News
  import Settings
  import Reflection

  /**
   * The 'news_analysis' entry of create_market_analysis_data
   * (analysis/ai_analysis.py:53-70): the same summary get_news_summary
   * builds, or nothing without news.
   */
  function NewsAnalysis(news: seq<News.AnalyzedNews>): (r: Option<News.NewsSummary>)
    ensures r.None? <==> news == []
  {
    News.GetNewsSummary(news)
  }

  /** Neutral is what is neither positive nor negative, and the recent news are the first five. */
  lemma NewsAnalysisShape(news: seq<News.AnalyzedNews>)
    requires news != []
    ensures var s := NewsAnalysis(news).value;
      s.neutralCount == s.totalNews - s.positiveCount - s.negativeCount && s.neutralCount >= 0
      && s.recentNews == news[..if |news| < 5 then |news| else 5]
  {
    News.SummaryCounts(news);
  }

  /** The 'orderbook' entry: the orderbook when it is a non-empty dict, otherwise null. */
  function OrderbookEntry(orderbook: PyValue): (r: PyValue)
    ensures r == orderbook || r == PyNone
  {
    if Truthy(orderbook) && orderbook.PyDict? then orderbook else PyNone
  }

  lemma OrderbookPassedOnlyAsDict(orderbook: PyValue)
    ensures OrderbookEntry(orderbook) != PyNone <==> orderbook.PyDict? && orderbook.entries != []
    ensures OrderbookEntry(orderbook) != PyNone ==> OrderbookEntry(orderbook) == orderbook
  {
  }

  datatype MarketSentiment = MarketSentiment(sentiment: string, analysis: string, confidence: real, timestamp: string)

  const FixedTimestamp: string := "2024-01-01T00:00:00"

  /**
   * analyze_market_sentiment (analysis/ai_analysis.py:84-141): `reply` is
   * the model's text, or the message of the exception the call raised.
   */
  function AnalyzeMarketSentiment(reply: Result<string, string>): (r: MarketSentiment)
    ensures r.sentiment == "neutral" && r.timestamp == FixedTimestamp
    ensures r.confidence == 0.7 <==> reply.Ok?
    ensures r.confidence == 0.0 <==> reply.Err?
    ensures reply.Ok? ==> r.analysis == reply.value
  {
    match reply
    case Ok(text) => MarketSentiment("neutral", text, 0.7, FixedTimestamp)
    case Err(e) => MarketSentiment("neutral", "분석 중 오류 발생: " + e, 0.0, FixedTimestamp)
  }

  /** A trade's 'profit_loss' key: absent (read as 0), None, or a number. */
  datatype ProfitField = Absent | Null | Amount(value: real)

  /** `t.get('profit_loss', 0)` compared with 0; None cannot be compared and raises TypeError. */
  predicate HasNull(trades: seq<ProfitField>)
  {
    exists i :: 0 <= i < |trades| && trades[i].Null?
  }

  function ProfitOf(t: ProfitField): real
  {
    if t.Amount? then t.value else 0.0
  }

  function Wins(trades: seq<ProfitField>): (n: nat)
    ensures n <= |trades|
  {
    if trades == [] then 0 else (if ProfitOf(trades[0]) > 0.0 then 1 else 0) + Wins(trades[1..])
  }

  function Losses(trades: seq<ProfitField>): (n: nat)
    ensures n <= |trades|
  {
    if trades == [] then 0 else (if ProfitOf(trades[0]) < 0.0 then 1 else 0) + Losses(trades[1..])
  }

  function Evens(trades: seq<ProfitField>): (n: nat)
  {
    if trades == [] then 0 else (if ProfitOf(trades[0]) == 0.0 then 1 else 0) + Evens(trades[1..])
  }

  datatype Statistics = Statistics(totalTrades: nat, winningTrades: nat, losingTrades: nat, winRate: real)

  datatype Performance = Performance(
    analysis: string, recommendations: seq<string>, confidence: real, statistics: Option<Statistics>)

  const NoTradesText: string := "분석할 거래 데이터가 없습니다."
  const LowWinRateAdvice: string := "승률이 낮습니다. 매매 전략을 재검토하세요."
  const MoreDataAdvice: string := "더 많은 거래 데이터가 필요합니다."
  const NoneComparisonError: string := "'>' not supported between instances of 'NoneType' and 'int'"

  /** The f-string report of the statistics; the win rate is shown as a percentage with two decimals. */
  function PerformanceText(s: Statistics): string
  {
    "\n        거래 성과 분석:\n        - 총 거래 수: " + Settings.DecimalString(s.totalTrades)
    + "\n        - 승리 거래: " + Settings.DecimalString(s.winningTrades)
    + "\n        - 패배 거래: " + Settings.DecimalString(s.losingTrades)
    + "\n        - 승률: " + Reflection.Fixed2(s.winRate * 100.0) + "%\n        "
  }

  /** analyze_trading_performance (analysis/ai_analysis.py:143-198). */
  method AnalyzeTradingPerformance(trades: seq<ProfitField>) returns (p: Performance)
    ensures trades == [] ==> p == Performance(NoTradesText, [], 0.0, None)
    ensures HasNull(trades) ==>
      p == Performance("분석 중 오류 발생: " + NoneComparisonError, [], 0.0, None)
    ensures trades != [] && !HasNull(trades) ==>
      var s := Statistics(|trades|, Wins(trades), Losses(trades), Wins(trades) as real / |trades| as real);
      && p.statistics == Some(s) && p.confidence == 0.8 && p.analysis == PerformanceText(s)
      && p.recommendations == (if s.winRate < 0.5 then [LowWinRateAdvice] else [])
                              + (if s.totalTrades < 10 then [MoreDataAdvice] else [])
  {
    if trades == [] {
      return Performance(NoTradesText, [], 0.0, None);
    }
    if HasNull(trades) {
      return Performance("분석 중 오류 발생: " + NoneComparisonError, [], 0.0, None);
    }
    var totalTrades := |trades|;
    var winningTrades := Wins(trades);
    var losingTrades := Losses(trades);
    var winRate := winningTrades as real / totalTrades as real;
    var stats := Statistics(totalTrades, winningTrades, losingTrades, winRate);
    var recommendations: seq<string> := [];
    if winRate < 0.5 {
      recommendations := recommendations + [LowWinRateAdvice];
    }
    if totalTrades < 10 {
      recommendations := recommendations + [MoreDataAdvice];
    }
    p := Performance(PerformanceText(stats), recommendations, 0.8, Some(stats));
  }

  /**
   * Every trade is a win, a loss or even, and a trade without a
   * 'profit_loss' counts as even, so wins and losses never exceed the
   * total and the win rate is a fraction (analysis/ai_analysis.py:162-165).
   */
  lemma {:induction false} WinsLossesEvens(trades: seq<ProfitField>)
    ensures Wins(trades) + Losses(trades) + Evens(trades) == |trades|
    ensures Wins(trades) + Losses(trades) <= |trades|
    ensures trades != [] ==> 0.0 <= Wins(trades) as real / |trades| as real <= 1.0
  {
    if trades != [] {
      WinsLossesEvens(trades[1..]);
      News.DivideWithin(Wins(trades) as real, |trades| as real);
    }
  }

  lemma AbsentProfitIsEven()
    ensures Wins([Absent, Amount(5.0), Amount(-1.0)]) == 1
    ensures Losses([Absent, Amount(5.0), Amount(-1.0)]) == 1
    ensures Evens([Absent, Amount(5.0), Amount(-1.0)]) == 1
  {
  }

  datatype Suggestion = Suggestion(kind: string, title: string, description: string, priority: string)

  const RiskSuggestion: Suggestion :=
    Suggestion("risk_management", "리스크 관리 강화", "승률이 낮으므로 리스크 관리 전략을 강화하세요.", "high")
  const StrategySuggestion: Suggestion :=
    Suggestion("strategy", "매매 전략 재검토", "현재 전략의 효과성을 재검토하고 개선하세요.", "medium")
  const MonitoringSuggestion: Suggestion :=
    Suggestion("monitoring", "지속적 모니터링", "시장 상황과 거래 성과를 지속적으로 모니터링하세요.", "low")

  function PriorityRank(priority: string): int
  {
    if priority == "high" then 2 else if priority == "medium" then 1 else 0
  }

  /** `performance_analysis.get('statistics', {}).get('win_rate', 0)`. */
  function WinRateOf(p: Performance): real
  {
    if p.statistics.Some? then p.statistics.value.winRate else 0.0
  }

  /** generate_improvement_suggestions (analysis/ai_analysis.py:200-247). */
  method GenerateImprovementSuggestions(p: Performance) returns (suggestions: seq<Suggestion>)
    ensures 1 <= |suggestions| <= 3
    ensures suggestions[|suggestions| - 1] == MonitoringSuggestion
    ensures RiskSuggestion in suggestions <==> WinRateOf(p) < 0.4
    ensures StrategySuggestion in suggestions <==> WinRateOf(p) < 0.5
    ensures |suggestions| == 1 + (if WinRateOf(p) < 0.4 then 1 else 0) + (if WinRateOf(p) < 0.5 then 1 else 0)
    ensures forall i, j :: 0 <= i < j < |suggestions| ==>
      PriorityRank(suggestions[i].priority) > PriorityRank(suggestions[j].priority)
    ensures p.statistics.None? ==> suggestions == [RiskSuggestion, StrategySuggestion, MonitoringSuggestion]
  {
    assert "high"[0] != "medium"[0] && "high"[0] != "low"[0] && "medium"[0] != "low"[0];
    suggestions := [];
    var winRate := WinRateOf(p);
    if winRate < 0.4 {
      suggestions := suggestions + [RiskSuggestion];
    }
    if winRate < 0.5 {
      suggestions := suggestions + [StrategySuggestion];
    }
    suggestions := suggestions + [MonitoringSuggestion];
  }
}
