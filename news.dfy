// data/news_data.py (and the copies in autotrading.py and
// advanced_ai_trading.py): keyword sentiment of news items and the
// summary built from the scored list.
module News {
  import opened Wrappers
  import opened Text
  import opened JsonCleaner

  const PositiveKeywords: seq<string> := [
    "상승", "급등", "돌파", "강세", "호재", "긍정", "낙관", "성장", "기대",
    "bullish", "rally", "surge", "breakout", "positive", "growth", "optimistic"
  ]

  const NegativeKeywords: seq<string> := [
    "하락", "급락", "폭락", "약세", "악재", "부정", "비관", "위험", "우려",
    "bearish", "crash", "drop", "decline", "negative", "risk", "concern"
  ]

  const PositiveLabel: string := "긍정"
  const NegativeLabel: string := "부정"
  const NeutralLabel: string := "중립"

  /** A news dict: its title and snippet, and whatever other keys it carries. */
  datatype NewsItem = NewsItem(title: string, snippet: string, fields: seq<(string, PyValue)>)

  /** The input dict with the four keys the scorer adds. */
  datatype AnalyzedNews = AnalyzedNews(
    item: NewsItem, sentimentScore: real, sentiment: string, positiveKeywords: nat, negativeKeywords: nat)

  /** The lowercased title and snippet joined by one space. */
  function FullText(n: NewsItem): string
  {
    Lower(n.title) + " " + Lower(n.snippet)
  }

  /** How many keywords of the list occur in the text: each keyword counts once, however often it occurs. */
  function Hits(keywords: seq<string>, text: string): (n: nat)
    ensures n <= |keywords|
  {
    if keywords == [] then 0
    else (if Contains(text, keywords[0]) then 1 else 0) + Hits(keywords[1..], text)
  }

  /** The sentiment score: the balance of hits over their number, 0 without hits. */
  function Score(pos: nat, neg: nat): real
  {
    if pos > 0 || neg > 0 then (pos as int - neg as int) as real / (if pos + neg > 1 then pos + neg else 1) as real else 0.0
  }

  function Label(score: real): string
  {
    if score > 0.3 then PositiveLabel
    else if score < -0.3 then NegativeLabel
    else NeutralLabel
  }

  /** One scored item. */
  function Analyze(n: NewsItem): AnalyzedNews
  {
    var text := FullText(n);
    var pos := Hits(PositiveKeywords, text);
    var neg := Hits(NegativeKeywords, text);
    AnalyzedNews(n, Score(pos, neg), Label(Score(pos, neg)), pos, neg)
  }

  /** analyze_news_sentiment (data/news_data.py:68-117). */
  method AnalyzeNewsSentiment(news: seq<NewsItem>) returns (r: Option<seq<AnalyzedNews>>)
    ensures r.None? <==> news == []
    ensures r.Some? ==> |r.value| == |news|
    ensures r.Some? ==> forall i :: 0 <= i < |news| ==> r.value[i] == Analyze(news[i]) && r.value[i].item == news[i]
  {
    if news == [] {
      return None;
    }
    var analyzed: seq<AnalyzedNews> := [];
    var i := 0;
    while i < |news|
      invariant 0 <= i <= |news|
      invariant |analyzed| == i
      invariant forall j :: 0 <= j < i ==> analyzed[j] == Analyze(news[j])
    {
      var text := FullText(news[i]);
      var positiveCount := Hits(PositiveKeywords, text);
      var negativeCount := Hits(NegativeKeywords, text);
      var score := 0.0;
      if positiveCount > 0 || negativeCount > 0 {
        score := (positiveCount as int - negativeCount as int) as real
          / (if positiveCount + negativeCount > 1 then positiveCount + negativeCount else 1) as real;
      }
      var sentiment := NeutralLabel;
      if score > 0.3 {
        sentiment := PositiveLabel;
      } else if score < -0.3 {
        sentiment := NegativeLabel;
      }
      assert score == Score(positiveCount, negativeCount);
      assert sentiment == Label(score);
      analyzed := analyzed + [AnalyzedNews(news[i], score, sentiment, positiveCount, negativeCount)];
      assert analyzed[i] == Analyze(news[i]);
      i := i + 1;
    }
    return Some(analyzed);
  }

  /** The score lies in [-1, 1], and equal hit counts give 0. */
  lemma ScoreBounds(pos: nat, neg: nat)
    ensures -1.0 <= Score(pos, neg) <= 1.0
    ensures pos == neg ==> Score(pos, neg) == 0.0
    ensures neg == 0 && pos > 0 ==> Score(pos, neg) == 1.0
    ensures pos == 0 && neg > 0 ==> Score(pos, neg) == -1.0
  {
    if pos > 0 || neg > 0 {
      var d := (pos + neg) as real;
      assert d >= 1.0;
      assert -d <= (pos as int - neg as int) as real <= d;
      DivideWithin((pos as int - neg as int) as real, d);
      if pos == 0 {
        assert (pos as int - neg as int) as real == -d;
      } else if neg == 0 {
        assert (pos as int - neg as int) as real == d;
      }
    }
  }

  lemma DivideWithin(x: real, d: real)
    requires d > 0.0 && -d <= x <= d
    ensures -1.0 <= x / d <= 1.0
  {
    assert x / d * d == x;
  }

  /**
   * The label depends only on the hit counts: positive when 7 positive
   * hits outweigh 13 negative ones, negative in the mirror case, neutral
   * otherwise (autotrading.py:287-301).
   */
  lemma LabelByCounts(pos: nat, neg: nat)
    ensures Label(Score(pos, neg)) == PositiveLabel <==> 7 * pos > 13 * neg
    ensures Label(Score(pos, neg)) == NegativeLabel <==> 7 * neg > 13 * pos
    ensures Label(Score(pos, neg)) == NeutralLabel <==> 7 * pos <= 13 * neg && 7 * neg <= 13 * pos
  {
    assert PositiveLabel != NegativeLabel && PositiveLabel != NeutralLabel && NegativeLabel != NeutralLabel by {
      assert PositiveLabel[0] != NegativeLabel[0] && PositiveLabel[0] != NeutralLabel[0];
      assert NegativeLabel[0] != NeutralLabel[0];
    }
    if pos > 0 || neg > 0 {
      var d := (pos + neg) as real;
      var x := (pos as int - neg as int) as real;
      assert Score(pos, neg) == x / d;
      assert x / d * d == x;
      QuotientAbove(x, d, 0.3);
      QuotientAbove(-x, d, 0.3);
      assert -x / d == -(x / d);
    }
  }

  /** For a positive divisor, a quotient exceeds a bound exactly when the dividend exceeds the bound times the divisor. */
  lemma QuotientAbove(x: real, d: real, b: real)
    requires d > 0.0
    ensures x / d > b <==> x > b * d
  {
    assert x / d * d == x;
    if x / d > b {
      assert x / d * d > b * d;
    } else {
      assert x / d * d <= b * d;
    }
  }

  /** A score of exactly ±0.3 is neutral (advanced_ai_trading.py:258-264). */
  lemma ThresholdIsNeutral()
    ensures Label(0.3) == NeutralLabel && Label(-0.3) == NeutralLabel
    ensures Label(0.31) == PositiveLabel && Label(-0.31) == NegativeLabel
  {
  }

  function Distinct(keywords: seq<string>): bool
  {
    forall i, j :: 0 <= i < j < |keywords| ==> keywords[i] != keywords[j]
  }

  /** The keywords of a list that occur in a text. */
  function Found(keywords: seq<string>, text: string): set<string>
  {
    set k | k in keywords && Contains(text, k)
  }

  /**
   * For a list without repeats, the hit count is the number of different
   * keywords found, not the number of occurrences (data/news_data.py:91-93).
   */
  lemma {:induction false} HitsCountsDistinctKeywords(keywords: seq<string>, text: string)
    requires Distinct(keywords)
    ensures Hits(keywords, text) == |Found(keywords, text)|
  {
    if keywords != [] {
      var rest := keywords[1..];
      assert Distinct(rest) by {
        forall i, j | 0 <= i < j < |rest|
          ensures rest[i] != rest[j]
        {
          assert rest[i] == keywords[i + 1] && rest[j] == keywords[j + 1];
        }
      }
      HitsCountsDistinctKeywords(rest, text);
      assert keywords[0] !in rest by {
        forall j | 0 <= j < |rest|
          ensures rest[j] != keywords[0]
        {
          assert rest[j] == keywords[j + 1];
        }
      }
      if Contains(text, keywords[0]) {
        assert Found(keywords, text) == Found(rest, text) + {keywords[0]};
      } else {
        assert Found(keywords, text) == Found(rest, text);
      }
    }
  }

  /** The summary get_news_summary returns. */
  datatype NewsSummary = NewsSummary(
    totalNews: nat, averageSentiment: real, positiveCount: nat, negativeCount: nat, neutralCount: int,
    recentNews: seq<AnalyzedNews>)

  function CountLabel(news: seq<AnalyzedNews>, wanted: string): (n: nat)
    ensures n <= |news|
  {
    if news == [] then 0
    else (if news[0].sentiment == wanted then 1 else 0) + CountLabel(news[1..], wanted)
  }

  function SumScores(news: seq<AnalyzedNews>): real
  {
    if news == [] then 0.0 else news[0].sentimentScore + SumScores(news[1..])
  }

  /** get_news_summary (data/news_data.py:119-137); the printed report is left out. */
  function GetNewsSummary(news: seq<AnalyzedNews>): (r: Option<NewsSummary>)
    ensures r.None? <==> news == []
  {
    if news == [] then None
    else
      var pos := CountLabel(news, PositiveLabel);
      var neg := CountLabel(news, NegativeLabel);
      Some(NewsSummary(|news|, SumScores(news) / |news| as real, pos, neg, |news| - pos - neg,
                       news[..if |news| < 5 then |news| else 5]))
  }

  /** An item is counted under at most one of two different labels. */
  lemma {:induction false} TwoLabelsAtMostAll(news: seq<AnalyzedNews>, a: string, b: string)
    requires a != b
    ensures CountLabel(news, a) + CountLabel(news, b) <= |news|
  {
    if news != [] {
      TwoLabelsAtMostAll(news[1..], a, b);
    }
  }

  /**
   * The three counts are non-negative and add up to the total, and the
   * recent news are the first five items, in order (data/news_data.py:124-136).
   */
  lemma SummaryCounts(news: seq<AnalyzedNews>)
    requires news != []
    ensures var s := GetNewsSummary(news).value;
      s.totalNews == |news| && s.neutralCount >= 0
      && s.positiveCount + s.negativeCount + s.neutralCount == s.totalNews
      && |s.recentNews| == (if |news| < 5 then |news| else 5)
      && forall i :: 0 <= i < |s.recentNews| ==> s.recentNews[i] == news[i]
  {
    assert PositiveLabel[0] != NegativeLabel[0];
    TwoLabelsAtMostAll(news, PositiveLabel, NegativeLabel);
  }

  lemma {:induction false} SumScoresWithin(news: seq<AnalyzedNews>)
    requires forall i :: 0 <= i < |news| ==> -1.0 <= news[i].sentimentScore <= 1.0
    ensures -(|news| as real) <= SumScores(news) <= |news| as real
  {
    if news != [] {
      assert -1.0 <= news[0].sentimentScore <= 1.0;
      SumScoresWithin(news[1..]);
    }
  }

  /** The average sentiment of scored items lies in [-1, 1] (data/news_data.py:124-125). */
  lemma AverageWithin(news: seq<AnalyzedNews>)
    requires news != []
    requires forall i :: 0 <= i < |news| ==> -1.0 <= news[i].sentimentScore <= 1.0
    ensures -1.0 <= GetNewsSummary(news).value.averageSentiment <= 1.0
  {
    SumScoresWithin(news);
    DivideWithin(SumScores(news), |news| as real);
  }

  /** Every item the scorer produces has a score in [-1, 1], so its summary's average does too. */
  lemma AnalyzedWithin(n: NewsItem)
    ensures -1.0 <= Analyze(n).sentimentScore <= 1.0
    ensures Analyze(n).sentiment == Label(Analyze(n).sentimentScore)
  {
    var text := FullText(n);
    ScoreBounds(Hits(PositiveKeywords, text), Hits(NegativeKeywords, text));
  }
}
