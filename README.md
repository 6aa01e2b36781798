# gptbitcoin trading bot — a Dafny model of its decision glue

gptbitcoin is a Python bot. It trades KRW-BTC on the Upbit exchange on the
advice of an OpenAI model, and it keeps a MySQL ledger of what it did and
what it learnt. This project models the deterministic logic between the
network calls and proves properties of it:

- **Order engine.** `trading/execution.py` turns a buy/sell/hold decision and
  an account snapshot (KRW, BTC, price) into at most one market order and a
  result record. It enforces the 5000 KRW minimum, the 95 % trade ratio, the
  0.05 % fee and the sell "dust" rule. Its variants are modelled as separate
  functions:
  - the orchestrator's copy in `autotrading.py`;
  - the 0.9995 fee-buffer variant shared by `advanced_ai_trading.py`,
    `enhanced_trading.py` and `enhanced_trading_with_indicators.py`.
- **Account.** Parsing the balances answer (a list or a dict), the grade
  bands, and the pending and recent orders (`trading/account.py` and its
  copies).
- **Ledger.** The MySQL tables are the `seq` fields of a `Database` class,
  and each INSERT is an append. It covers the trade recorder
  (`database/trade_recorder.py`) and the read-only queries
  (`database/query.py`) as filters, sorts and folds over those sequences.
- **Reflection system.** Score formulas, decision quality, period metrics,
  the per-trade fan-out of a periodic reflection, learning insights and
  strategy proposals (`analysis/reflection_system.py`). Also the
  statistics, sentiment and suggestion rules of `analysis/ai_analysis.py`.
- **Classifiers.** Keyword news sentiment (`data/news_data.py` and its
  copies). The OHLCV column mapping, the latest-indicator extraction and the
  signal thresholds of `analysis/technical_indicators.py`.
- **JSON cleaner.** The structural recursion of `utils/json_cleaner.py`.
- **Scheduler.** The daily, weekly and monthly reflection windows of
  `scheduler.py`, with Python's calendar arithmetic. Also the order in which
  jobs are registered.
- **Small pieces.** Settings and API-key validation (`config/settings.py`),
  the structured decision's single constraint (`analysis/models.py`), and
  the screenshot resize rule and JPEG quality search (`data/screenshot.py`).

Network, OpenAI, Upbit and MySQL calls are parameters. A call's outcome is
an `Account.Fetch` (value, `None` or raised exception) or an
`Execution.OrderResponse`, and the database's availability is a flag on
`Ledger.Database`. Decimal amounts are `real`. Float values that can be NaN
or infinite are the `JsonCleaner.Float` datatype. Instants are integers
counting microseconds, with Python's day ordinals (`Calendar`).

Where the code departs from its documentation, the model follows the code:

- A decision string other than buy/sell/hold is not turned into a hold. It
  reaches the "unknown decision" branch of each engine.
- The orchestrator (`autotrading.py`) records 0 BTC for a buy at a
  non-positive price. The engine in `trading/execution.py` ends that buy
  with status `error`, because its `expected_btc` is never bound.
- Profit/loss is stubbed to 0.0, `profit_rate` is always 0, and period
  metrics are always typed `daily`. All three are modelled and proved as
  they are.
- Holds never get an immediate reflection.

## Model

| member | source | states |
|---|---|---|
| Text.Lower | data/news_data.py:88 | `str.lower()` keeps the length and lowers exactly the ASCII capitals, character by character |
| Text.ContainsIffOccurs | data/news_data.py:91-93 | the substring test `kw in text` holds exactly when `kw` occurs at some position of `text` |
| Sorting.SortAscCorrect | analysis/reflection_system.py:381-384 | `ORDER BY timestamp ASC` yields a sorted permutation of the rows, of the same length |
| Sorting.SortDescCorrect | database/query.py:27-33 | `ORDER BY timestamp DESC` yields a permutation of the rows sorted newest first |
| Sorting.InsertAscCorrect | analysis/reflection_system.py:381-384 | inserting a row into an ascending list keeps it ascending and adds exactly that row |
| Sorting.Reverse | database/query.py:61 | the reversed list holds the same rows mirrored, index i going to n−1−i |
| JsonCleaner.Lookup | utils/json_cleaner.py:20 | a dict lookup finds a value exactly when some entry carries the key |
| JsonCleaner.DictKeepsKeys | utils/json_cleaner.py:18-22 | a dict is cleaned to a dict with the same keys, in order, each value cleaned recursively |
| JsonCleaner.ListKeepsLength | utils/json_cleaner.py:23-24 | a list is cleaned element-wise into a list of the same length |
| JsonCleaner.ScalarCases | utils/json_cleaner.py:25-36 | NaN and ±infinity become None, finite floats, ints, strings and None stay, numpy numbers become Python ones, True/False become 1/0, any other value becomes its `str()` |
| JsonCleaner.TupleBecomesText | utils/json_cleaner.py:23-36 | a tuple is not cleaned as a list: it becomes its `str()` text |
| JsonCleaner.NumpyAndTupleEncoding | utils/json_cleaner.py:25-30 | `json.dumps` rejects a numpy integer or float32 that the cleaner converts, and accepts a tuple as an array |
| JsonCleaner.CleanIsClean | utils/json_cleaner.py:18-36 | the output only holds dicts, lists, finite floats, ints, strings and None, at any depth |
| JsonCleaner.CleanShapeIsJson | utils/json_cleaner.py:10-16 | a value of that shape has no NaN or infinity anywhere and nothing `json.dumps` rejects |
| JsonCleaner.CleanIsJson | utils/json_cleaner.py:10-16 | the cleaned value always serialises as JSON |
| JsonCleaner.CleanFixesCleanShape | utils/json_cleaner.py:18-36 | cleaning leaves a value that already has the cleaned shape unchanged |
| JsonCleaner.CleanIdempotent | utils/json_cleaner.py:18-36 | cleaning twice is cleaning once |
| JsonCleaner.CleanChangesOnlyUnsafeScalars | utils/json_cleaner.py:25-36 | a scalar (or tuple) is left as it is exactly when it is a finite Python float, a Python int, a string or None |
| Calendar.DaysInMonth | scheduler.py:101-115 | every month has 28 to 31 days |
| Calendar.Weekday | scheduler.py:77 | `weekday()` lies in 0..6 |
| Calendar.StartOfDay | scheduler.py:56 | `replace(hour=0, …, microsecond=0)` stays on the same day and does not move forward |
| Calendar.EndOfDay | scheduler.py:57 | `replace(hour=23, …, microsecond=999999)` stays on the same day and does not move back |
| Calendar.DayOfBounds | scheduler.py:55-57 | an instant lies on day d exactly when it lies between that day's first and last microsecond |
| Calendar.InstantOfDay | scheduler.py:55 | the instant of a valid datetime falls on its date's ordinal |
| Calendar.DaysBeforeMonthIsPrefixSum | scheduler.py:110-113 | the twelve month lengths of a year add up to 365, or 366 in a leap year |
| Calendar.DaysBeforeNextYear | scheduler.py:101-104 | consecutive years begin a year's length apart |
| Calendar.PreviousMonth | scheduler.py:101-104 | the month before January is December of the year before; otherwise it is the month before, in the same year |
| Calendar.DayBeforeFirstOfMonth | scheduler.py:110-113 | the day before the 1st of a month is the last day of the previous month, across a year boundary too |
| Calendar.KnownMonday | scheduler.py:76-77 | 2024-01-01 has weekday 0 (Monday), and 9999-12-31 is the last representable day |
| Settings.GetTradingConfig | config/settings.py:72-79 | the trading config is KRW-BTC, a 5000 KRW minimum, a 0.95 trade ratio and a 0.0005 fee; the ratio lies in (0,1] and the fee in [0,1) |
| Settings.GetAnalysisConfig | config/settings.py:81-87 | 30 daily candles, 24·60 minute candles and the 19 listed indicator names |
| Settings.ValidateApiKeys | config/settings.py:56-70 | succeeds (with True) exactly when all three keys are set and non-empty; otherwise the error lists exactly the missing names, never empty |
| Settings.MissingKeysExact | config/settings.py:58-66 | each required key is reported exactly when it is unset, at most three names, in the fixed order access, secret, openai |
| Settings.ParseInt | config/settings.py:51 | `int()` succeeds exactly on a string of decimal digits with an optional sign |
| Settings.DecimalRoundTrip | config/settings.py:51 | reading back the decimal digits of n gives n |
| Settings.DbPortParses | config/settings.py:51 | DB_PORT defaults to 3306, a decimal port reads back as itself, and an empty value fails to parse |
| DecisionModels.Validate | analysis/models.py:28-35 | validation succeeds exactly when no field fails: every field is required (chart_analysis too, though it may be null) and confidence must lie in [0,1]; a validated decision carries the given decision, reason and chart analysis; a failure lists the failing fields |
| DecisionModels.DumpRoundTrip | analysis/models.py:31 | dumping and re-validating a decision gives it back exactly when its confidence lies in [0,1], and otherwise fails on confidence alone |
| DecisionModels.OnlyConfidenceIsConstrained | analysis/models.py:24-35 | any decision and risk strings, an inverted price range and a null chart analysis are all accepted when confidence is in range |
| DecisionModels.ChartAnalysisRequired | analysis/models.py:35 | an answer without a chart_analysis key is rejected, naming chart_analysis |
| DecisionModels.KeyIndicatorsRequired | analysis/models.py:34 | a decision without key indicators is rejected, naming key_indicators |
| DecisionModels.ConfidenceOutOfRangeRejected | analysis/models.py:31 | a confidence of 1.5 or −0.1 is rejected, naming confidence |
| DecisionModels.AsRecord | analysis/models.py:29-31 | the dumped dict carries decision, confidence and 'reason', and no 'reasoning' key |
| Account.ParseBalances | trading/account.py:22-43 | the list and dict loops give exactly the holdings of the reference fold, None when an entry makes them raise |
| Account.LastKrwEntryWins | trading/account.py:27-32 | later list entries overwrite earlier ones: the KRW balance is that of the last KRW entry |
| Account.LastKrwCons | trading/account.py:27-32 | the reference "last KRW entry" splits over the first entry of the list |
| Account.NoKrwEntryMeansZero | trading/account.py:22-24 | a balance list without a KRW entry reads a KRW balance of 0 |
| Account.NoKrwLastIsDefault | trading/account.py:22-24 | with no KRW entry the reference gives its default |
| Account.GetInvestmentStatus | trading/account.py:10-110 | the snapshot the method computes with its balance loop is the reference snapshot |
| Account.StatusNoneCases | trading/account.py:14-110 | the snapshot is None exactly when balances are missing or unreadable, the price call raises, or the BTC ratio divides by a zero total; a missing price reads as 0 |
| Account.GradeRank | trading/account.py:84-93 | the five grades have ranks 0..4 |
| Account.GradeMonotone | trading/account.py:84-93 | a higher return never gets a lower grade |
| Account.GradeBands | trading/account.py:84-93 | A+ iff ≥20 %, A iff 10–20 %, B iff 0–10 %, C iff −10–0 %, D below −10 % |
| Account.ProfitPercentIsPriceMove | trading/account.py:74-80 | the return percentage does not depend on the amount held: it is the price move over the average buy price |
| Account.PerformanceGrade | trading/account.py:52-95 | a grade is computed exactly when the price is truthy, BTC is held and the average buy price is positive |
| Account.GradeExample | trading/account.py:84-93 | bought at 50M and priced at 60M is +20 %, grade A+, whatever the holding |
| Account.PendingValueAppend | trading/account.py:125-141 | the pending total is additive over a split of the order list |
| Account.UnpricedOrdersAddNothing | trading/account.py:128-141 | market-price, unpriced and non-dict orders add nothing to the pending total |
| Account.GetPendingOrders | trading/account.py:112-152 | the orders are the answer, or [] when the call gives None or raises; the loop's total is the sum of price·volume over priced orders |
| Ledger.Database.InsertTrade | database/trade_recorder.py:57-73 | with a connection the row is appended with the next id; without one nothing changes; trade ids stay 1..n |
| Ledger.Database.InsertMarketData | database/trade_recorder.py:102-118 | appends exactly the row when connected, nothing otherwise |
| Ledger.Database.InsertSystemLog | database/trade_recorder.py:136-146 | appends exactly the row when connected, nothing otherwise |
| Ledger.Database.InsertReflection | analysis/reflection_system.py:344-373 | appends the row exactly when connected and its trade id names an existing trade (the foreign key) |
| Ledger.Database.InsertMetrics | analysis/reflection_system.py:485-516 | appends exactly the row when connected, nothing otherwise |
| Ledger.Database.InsertInsight | analysis/reflection_system.py:608-634 | appends exactly the row when connected, nothing otherwise |
| Ledger.Database.InsertImprovement | analysis/reflection_system.py:717-745 | appends exactly the row when connected, nothing otherwise |
| Ledger.DecisionCountsExact | database/trade_recorder.py:191-197 | `GROUP BY decision` reports each decision present with its row count, and no other key |
| Ledger.SumOfNonNegative | database/trade_recorder.py:199-204 | a SUM over non-negative values (NULL read as 0) is non-negative |
| TradeRecorder.TradeRowFor | database/trade_recorder.py:31-54 | the row carries the time, the decision (default 'unknown'), the 'reasoning' key (default '') and the balances (default 0) |
| TradeRecorder.TradeRowDefaults | database/trade_recorder.py:31-43 | with every key absent: decision 'unknown', action 'none', zero amounts, order id '', status 'executed', confidence 0 |
| TradeRecorder.ModelDecisionStoresNoReasoning | database/trade_recorder.py:43 | a validated model decision carries 'reason', so its row stores an empty reasoning but its own decision and confidence |
| TradeRecorder.StoredMarketDataIsJson | database/trade_recorder.py:46-54 | the JSON column is NULL exactly when the market data is falsy, and otherwise always serialises, so the NULL fallback is never taken |
| TradeRecorder.SaveTrade | database/trade_recorder.py:19-77 | one row with the next id when connected, none otherwise; the result says which |
| TradeRecorder.MarketRowDefaults | database/trade_recorder.py:89-100 | an empty dict stores zeros, and a present key stores its value |
| TradeRecorder.SaveMarketData | database/trade_recorder.py:79-122 | one row built from the eleven keys when connected, none otherwise |
| TradeRecorder.SaveSystemLog | database/trade_recorder.py:124-150 | one log row with the level, message and module when connected, none otherwise |
| TradeRecorder.GetTradeStatistics | database/trade_recorder.py:177-217 | statistics exist exactly with a connection, and count every trade |
| TradeRecorder.StatisticsMeaning | database/trade_recorder.py:187-204 | counts are grouped by decision, the sums are those of the value and fee columns, and an empty table reports zeros |
| TradeRecorder.TotalFeeNonNegative | database/trade_recorder.py:203-204 | with non-negative fees the total fee is non-negative |
| Queries.Limit | database/query.py:33 | `LIMIT n` keeps the first min(n, rows) rows, and a negative limit is an error |
| Queries.RecentTradesNewestFirst | database/query.py:18-44 | at most `limit` rows (exactly min(limit, n)), newest first, drawn from the table; [] without a connection |
| Queries.RecentTradesAreTheNewest | database/query.py:27-37 | every row left out is no newer than any row returned |
| Queries.Between | database/query.py:60 | BETWEEN only keeps rows with start ≤ timestamp ≤ end |
| Queries.BetweenExact | database/query.py:60 | BETWEEN keeps every row inside the closed interval as often as it occurs, and nothing else |
| Queries.DateRangeExact | database/query.py:46-72 | the range query returns exactly the rows with start ≤ timestamp ≤ end, newest first |
| Queries.Since | database/query.py:84-90 | `timestamp >= since` keeps only rows at or after the bound |
| Queries.WithAction | database/query.py:119-127 | `action = a` keeps only rows with that action |
| Queries.SumOfNegated | database/query.py:121-123 | summing −total_value is the negated sum |
| Queries.StatisticsWindow | database/query.py:84-117 | the statistics only see rows at or after now − days; counts are grouped by decision, total_value sums buys and sells, total_fee sums every row; None without a connection |
| Queries.ProfitRateAlwaysZero | database/query.py:119-132 | with non-negative values buy_total is never positive, so profit_rate is always 0 and profit adds the buy volume |
| Queries.SinceSubset | database/query.py:84-90 | the window holds only rows of the table |
| Queries.WithActionSubset | database/query.py:119-127 | filtering by action returns only rows of its input |
| Queries.SingleBuyReportsProfit | database/query.py:119-132 | a single 100,000 KRW buy with a 50 KRW fee reports a profit of 99,950 and a rate of 0 |
| Queries.CorrectedProfitMeaning | database/query.py:119-132 | the corrected profit is proceeds − cost − fees, never positive without sales, and differs from the as-written one by twice the buy volume |
| Queries.SingleBuyCorrected | database/query.py:119-132 | the same single buy gives a corrected profit of −100,050, a rate of −100.05 % |
| Queries.WithLevel | database/query.py:190-198 | `level = l` keeps only rows with that level |
| Queries.SystemLogsFilter | database/query.py:181-214 | filters by level only when a non-empty level is given; at most `limit` rows, newest first |
| Reflection.Clamp01 | analysis/reflection_system.py:233 | `max(0, min(1, x))` lies in [0,1] and is x inside it |
| Reflection.ScoreFor | analysis/reflection_system.py:216-233 | the performance score lies in [0,1] |
| Reflection.ScoreOrdersOutcomes | analysis/reflection_system.py:224-231 | a loss never scores above break-even, which never scores above a gain; a gain scores 0.8 + (c−0.5)·0.2 |
| Reflection.PerformanceScore | analysis/reflection_system.py:216-237 | the score of a trade lies in [0,1] |
| Reflection.PerformanceScoreFromConfidence | analysis/reflection_system.py:230-231 | with the profit/loss placeholder the score is 0.4 + 0.2·confidence, and 0.5 without a confidence |
| Reflection.DecisionQualityIsAgreement | analysis/reflection_system.py:256-274 | decision quality is 0.8 exactly when a buy meets a bullish trend or a sell a bearish one, and 0.5 otherwise |
| Reflection.MissingTrendIsNeutral | analysis/reflection_system.py:262 | market data without a trend counts as neutral (0.5); a buy into a bullish market scores 0.8 |
| Reflection.ImmediateAnalysisEncodingCases | analysis/reflection_system.py:295-315 | market data holding a tuple keeps the analysis text; one holding a numpy integer makes `json.dumps` raise and gives the failure text |
| Reflection.ImmediateRowFields | analysis/reflection_system.py:80-94 | an immediate row is typed 'immediate', keyed to the trade, with timing 0.6, risk 0.7 and scores in [0,1] |
| Reflection.CreateImmediateReflection | analysis/reflection_system.py:60-101 | one row is appended exactly when connected, the market data encodes and the trade exists; the result says which |
| Reflection.TradesInPeriodExact | analysis/reflection_system.py:375-394 | the window holds exactly the table's rows with start ≤ timestamp ≤ end, oldest first |
| Reflection.CountPositive | analysis/reflection_system.py:401 | the number of gaining trades is at most the total, and positive exactly when some trade gained |
| Reflection.CountNegative | analysis/reflection_system.py:543-566 | the number of losing trades is at most the total, and positive exactly when some trade lost |
| Reflection.PeriodMetricsMeaning | analysis/reflection_system.py:396-431 | winning counts gains, losing is everything else (break-even included), the win rate is their share or 0, and the row is typed 'daily' with drawdown 0.1 and Sharpe 0.5 |
| Reflection.SumProfitOfStub | analysis/reflection_system.py:239-246 | with the placeholder profit/loss the period total is 0 |
| Reflection.StubbedPeriodMetrics | analysis/reflection_system.py:239-254 | with the placeholder no trade wins: the win rate, profit and its percentage are 0 and every trade is losing |
| Reflection.PeriodImprovementLinesMeaning | analysis/reflection_system.py:446-461 | each improvement line appears exactly when its threshold is crossed, at most once, in the order win rate, drawdown, loss |
| Reflection.StubbedPeriodAnalysis | analysis/reflection_system.py:437-444 | under the placeholder the period analysis reports n trades with a 0.00 % win rate and a 0.00 % return |
| Reflection.StubbedPeriodImprovement | analysis/reflection_system.py:446-461 | under the placeholder the improvement text is the win-rate line alone |
| Reflection.AllImprovementLines | analysis/reflection_system.py:461 | the lines are joined with newlines, and no line gives the fixed "strategy is fine" text |
| Reflection.Fixed2Zero | analysis/reflection_system.py:441 | 0 is written "0.00" |
| Reflection.TradeIdInRange | analysis/reflection_system.py:124-126 | a row of the trades table has an id that names an existing trade |
| Reflection.PeriodRowsSnoc | analysis/reflection_system.py:124-141 | the fan-out of a prefix extended by one trade is extended by that trade's row |
| Reflection.PeriodRowsFanOut | analysis/reflection_system.py:124-141 | one reflection per trade, in window order, each keyed to its trade, with performance = quality = win rate, timing 0.5 and risk 1 − drawdown |
| Reflection.SaveReflections | analysis/reflection_system.py:124-141 | the loop appends exactly the fan-out rows, every save succeeding |
| Reflection.CreatePeriodicReflection | analysis/reflection_system.py:103-144 | an empty window succeeds without writing; otherwise exactly the fan-out rows then one metrics row; False and nothing written without a connection |
| Reflection.LearningInsightsMeaning | analysis/reflection_system.py:153-187 | a success insight exactly when some trade gained, a failure insight exactly when some trade lost, then one market and one timing insight |
| Reflection.StubbedLearningInsights | analysis/reflection_system.py:518-606 | under the placeholder only the market and timing insights appear |
| Reflection.AnalyzeLearningPatterns | analysis/reflection_system.py:153-187 | returns the insights of the last 30 days and saves each; returns [] and saves nothing without a connection or when `now − 30 days` falls before year 1 (the caught OverflowError) |
| Reflection.SaveInsights | analysis/reflection_system.py:179-181 | with a connection, saving the insights one by one appends exactly them, in order |
| Reflection.StrategyImprovementsShape | analysis/reflection_system.py:636-715 | always three proposals, condition, parameter and risk, all 'proposed' |
| Reflection.GenerateStrategyImprovements | analysis/reflection_system.py:189-214 | returns the three proposals and saves each, or [] and nothing saved without a connection |
| Execution.Exchange.Submit | trading/execution.py:80-81 | a market-order call reaches the exchange, whatever it answers: the order is appended to the exchange's orders |
| Execution.ExecuteTradingDecision | trading/execution.py:11-207 | without a snapshot the result is 'skipped' whatever the decision; with one, a None decision (the AI call's failure value) or an answer without a 'decision' key raises TypeError or KeyError before any order or row; otherwise the result is the reference outcome, exactly the planned order (zero or one) is sent, and one ledger row with the pre-trade balances is appended exactly on success with a connection |
| Execution.ExecuteBuy | trading/execution.py:47-117 | the buy branch sends exactly the planned buy, returns the reference outcome and records it only on success |
| Execution.ExecuteSell | trading/execution.py:119-187 | the sell branch sends exactly the planned sell, returns the reference outcome and records it only on success |
| Execution.NoStatusSkips | trading/execution.py:17-30 | without an account snapshot nothing is sent and the result is action 'none', status 'skipped', not successful |
| Execution.RecordedIffExecutedOrHeld | trading/execution.py:112-197 | success (and so a ledger row) happens exactly for 'executed' or 'held', and needs a sent order or a hold |
| Execution.BuyBelowMinimum | trading/execution.py:49-54 | a buy with less than 5000 KRW sends nothing and reports 'insufficient_balance' |
| Execution.BuyNotionalWithinBalance | trading/execution.py:49-80 | a buy that goes out spends between 5000 KRW and the whole KRW balance |
| Execution.BuyFeeExample | trading/execution.py:64-95 | 100,000 KRW at 50,000,000 spends 95,000 with a fee of 47.5 and records 0.00189905 BTC |
| Execution.BuyAmountsMeaning | trading/execution.py:64-73 | the fee is 0.05 % of the notional, and the recorded amount at the price plus the fee is the notional |
| Execution.BuyAtNonPositivePrice | trading/execution.py:71-117 | at a price ≤ 0 a buy order is still sent but ends as 'error' with action 'none', unsuccessful |
| Execution.SellWithinHoldings | trading/execution.py:123-133 | a sell that goes out never sells more than is held, and its value at the price is at least the minimum order |
| Execution.SellBelowMinimum | trading/execution.py:123-125 | a sell whose holding is worth less than 5000 KRW sends nothing and reports 'insufficient_balance' |
| Execution.OrderCallOutcomes | trading/execution.py:81-183 | once sent, success comes exactly from a receipt (a buy also needing a positive price); a falsy answer is 'failed' and anything else 'error'; a sale's fee is 0.05 % of its value; the order id is the uuid or '' |
| Execution.HoldSendsNothing | trading/execution.py:185-202 | a hold sends nothing and reports 'held' at the current price with zero amounts, successful |
| Execution.UnknownDecision | trading/execution.py:204-207 | any other decision string sends nothing and reports 'unknown_decision', unsuccessful |
| AutoTrading.SaveTradeAndCreateReflection | autotrading.py:1122-1175 | the trade row is appended whenever connected, the market row only for a truthy dict, and the immediate reflection, keyed to MAX(id), exactly when the reflection conditions hold; nothing raises |
| AutoTrading.ExecuteTradingDecision | autotrading.py:937-1120 | without a snapshot returns False whatever the decision; with one, a None decision or an answer without a 'decision' key raises TypeError or KeyError before any order or row; otherwise returns True exactly as the reference says, sends exactly the planned order, writes nothing on False and exactly the save-and-reflect rows on True |
| AutoTrading.Buy | autotrading.py:968-1033 | the buy branch sends exactly the planned buy; False writes nothing, True writes the trade and its reflection |
| AutoTrading.Sell | autotrading.py:1035-1098 | the sell branch sends exactly the planned sell; False writes nothing, True writes the trade and its reflection |
| AutoTrading.AgreesWithEngine | autotrading.py:968-1120 | this routine succeeds exactly when the engine of trading/execution.py does, or on an accepted buy at a price ≤ 0; they send the same orders |
| AutoTrading.NoStatusReturnsFalse | autotrading.py:945-947 | without an account snapshot nothing is sent and False is returned |
| AutoTrading.BuyAtNonPositivePriceRecordsZero | autotrading.py:1010-1017 | an accepted buy at a price ≤ 0 returns True and records 0 BTC for at least 5000 KRW spent |
| AutoTrading.ReflectsOnlyOnOrders | autotrading.py:1147-1170 | only an executed buy or sell is reflected on, never a hold, and one always is when connected and its market data is usable |
| AutoTrading.MissingMarketReflectsOnEmptyDict | autotrading.py:1139-1161 | a missing or falsy market value stores no market row and reflects on an empty dict |
| FeeBufferedTrading.Balance | advanced_ai_trading.py:362-383 | a KRW or BTC balance that is None, non-positive or raises becomes 0, so it is never negative and is positive exactly for a positive answer |
| FeeBufferedTrading.FullyInvestedWithoutPriceFails | advanced_ai_trading.py:386-401 | BTC held, no KRW and no price: the snapshot as written raises ZeroDivisionError, the corrected one reports a BTC share of 0 |
| FeeBufferedTrading.StatusCorrectedMeaning | enhanced_trading.py:105-120 | the corrected snapshot fails only when the price request raises, equals the as-written one whenever that succeeds, and reports a 0 share where that one divides by zero |
| FeeBufferedTrading.StatusBounds | enhanced_trading_with_indicators.py:181-220 | balances are non-negative, total assets are KRW plus BTC at the price (KRW alone without BTC), and with a non-negative price the BTC share is a percentage |
| FeeBufferedTrading.ShareIsPercent | advanced_ai_trading.py:401 | a part of a whole, divided by it, is a percentage in [0,100] |
| FeeBufferedTrading.QuotientCompare | advanced_ai_trading.py:925 | for a positive price, `q > 5000/p` is `q·p > 5000` |
| FeeBufferedTrading.ExecuteTradingDecision | advanced_ai_trading.py:894-944 | returns the reference answer, and sends exactly the planned order when the plan does not raise, nothing otherwise |
| FeeBufferedTrading.BuyThreshold | enhanced_trading.py:362-378 | a buy goes out exactly when 99.95 % of the KRW exceeds 5000 (strictly), spending that much and never the whole balance |
| FeeBufferedTrading.SellThreshold | enhanced_trading_with_indicators.py:549-565 | at a positive price, a sell goes out exactly when 99.95 % of the BTC is worth more than 5000, and never sells all of it |
| FeeBufferedTrading.SellAtZeroPriceFails | advanced_ai_trading.py:922-927 | a sell signal at a price of 0 raises ZeroDivisionError before any order |
| FeeBufferedTrading.SellPlanCorrectedMeaning | advanced_ai_trading.py:922-927 | the corrected sell test never raises, sends nothing at a price ≤ 0, agrees with the routine at every positive price, and only sells more than 5000 KRW worth |
| FeeBufferedTrading.AnyAnswerCountsAsDone | advanced_ai_trading.py:911-935 | once an order is sent the routine reports True whatever the exchange answers, even a falsy one; only an exception gives False |
| FeeBufferedTrading.HoldAndUnknown | enhanced_trading_with_indicators.py:567-571 | a hold sends nothing and reports True; any other signal sends nothing and reports False |
| News.Hits | data/news_data.py:91-93 | the hit count is at most the number of keywords |
| News.HitsCountsDistinctKeywords | data/news_data.py:91-93 | with a keyword list without repeats, the hit count is the number of different keywords found, not of occurrences |
| News.AnalyzeNewsSentiment | data/news_data.py:68-117 | None exactly for no news; otherwise one scored item per input, in order, each keeping its input fields |
| News.ScoreBounds | data/news_data.py:96-99 | the score lies in [−1,1], is 0 for balanced hits, 1 for only positive and −1 for only negative hits |
| News.DivideWithin | data/news_data.py:97 | a dividend within ± a positive divisor gives a quotient in [−1,1] |
| News.LabelByCounts | autotrading.py:285-301 | the label depends on the counts alone: positive exactly when 7·pos > 13·neg, negative in the mirror case, neutral otherwise |
| News.QuotientAbove | data/news_data.py:102-105 | for a positive divisor, a quotient exceeds a bound exactly when the dividend exceeds bound × divisor |
| News.ThresholdIsNeutral | advanced_ai_trading.py:258-264 | a score of exactly ±0.3 is neutral, and ±0.31 is not |
| News.CountLabel | data/news_data.py:124-126 | a label count is at most the number of items |
| News.GetNewsSummary | data/news_data.py:119-137 | no summary exactly for no news |
| News.TwoLabelsAtMostAll | data/news_data.py:124-126 | an item is counted under at most one of two different labels |
| News.SummaryCounts | data/news_data.py:124-136 | the counts are non-negative and add up to the total, and the recent news are the first min(5, n) items in order |
| News.SumScoresWithin | data/news_data.py:124-125 | n scores in [−1,1] sum to within ±n |
| News.AverageWithin | data/news_data.py:124-125 | the average sentiment lies in [−1,1] |
| News.AnalyzedWithin | data/news_data.py:96-107 | every scored item has a score in [−1,1] and the label of that score |
| AiAnalysis.NewsAnalysis | analysis/ai_analysis.py:54-70 | the snapshot carries a news summary exactly when there is analysed news |
| AiAnalysis.NewsAnalysisShape | analysis/ai_analysis.py:60-69 | neutral news are those neither positive nor negative (a non-negative count), and the recent news are the first five |
| AiAnalysis.OrderbookEntry | analysis/ai_analysis.py:79 | the orderbook entry is the orderbook itself or null |
| AiAnalysis.OrderbookPassedOnlyAsDict | analysis/ai_analysis.py:79 | the orderbook is passed on exactly when it is a non-empty dict, and then unchanged |
| AiAnalysis.AnalyzeMarketSentiment | analysis/ai_analysis.py:84-141 | the sentiment is always 'neutral' with the fixed timestamp; confidence is 0.7 exactly when the model answered (its text becoming the analysis) and 0.0 exactly when the call raised |
| AiAnalysis.Wins | analysis/ai_analysis.py:163 | the number of winning trades never exceeds the number of trades |
| AiAnalysis.Losses | analysis/ai_analysis.py:164 | the number of losing trades never exceeds the number of trades |
| AiAnalysis.AnalyzeTradingPerformance | analysis/ai_analysis.py:143-198 | no trades give the 'no data' answer with confidence 0; a None profit raises inside the try and gives the error answer; otherwise the statistics count trades, wins and losses with win rate wins/total, confidence 0.8 and the two conditional recommendations |
| AiAnalysis.WinsLossesEvens | analysis/ai_analysis.py:162-165 | wins, losses and even trades partition the trades, so the win rate lies in [0,1] |
| AiAnalysis.AbsentProfitIsEven | analysis/ai_analysis.py:163-164 | a trade without 'profit_loss' counts neither as a win nor as a loss |
| AiAnalysis.GenerateImprovementSuggestions | analysis/ai_analysis.py:200-247 | one to three suggestions, monitoring always last; risk management exactly below a 0.4 win rate, strategy review exactly below 0.5; priorities strictly fall along the list; without statistics the win rate reads 0 and all three are given |
| Indicators.FirstMatch | analysis/technical_indicators.py:26-30 | the found column is the first whose lower-cased label contains the name; none found means no column contains it |
| Indicators.MatchCountFull | analysis/technical_indicators.py:32-35 | the mapping has at most five entries, and five exactly when every required name found a column |
| Indicators.RequiredDistinct | analysis/technical_indicators.py:21 | the five required names are distinct, so no mapping entry is written twice |
| Indicators.FindColumn | analysis/technical_indicators.py:27-30 | the inner loop stops at the first matching column, the first-match search |
| Indicators.ColumnMapping | analysis/technical_indicators.py:25-30 | the mapping holds exactly the required names that found a column, each mapped to its first matching column |
| Indicators.MapNames | analysis/technical_indicators.py:25-30 | for distinct names, the loop's dict holds exactly the names some column contains, each with its first such column, and has as many entries as names found |
| Indicators.Column | analysis/technical_indicators.py:38-44 | a mapped column is one of the frame's columns and contains its name |
| Indicators.RenameMap | analysis/technical_indicators.py:38-44 | the rename dict only ever renames to Open, High, Low, Close or Volume |
| Indicators.Renamed | analysis/technical_indicators.py:38-44 | renaming keeps the number of columns |
| Indicators.Assigned | analysis/technical_indicators.py:48-95 | assigning columns keeps the existing ones in place and adds exactly the new names |
| Indicators.WithIndicators | analysis/technical_indicators.py:48-95 | the renamed columns stay first, and the indicator columns are added |
| Indicators.MappedColumns | analysis/technical_indicators.py:25-44 | a complete mapping names, for each of the five names, its first matching column |
| Indicators.CalculateTechnicalIndicators | analysis/technical_indicators.py:15-103 | the labels and outcome returned are those of the reference function Labels |
| Indicators.LabelsFallback | analysis/technical_indicators.py:17-35 | an empty frame, an incomplete mapping or a raising computation returns the input columns unchanged, and the outcome says which |
| Indicators.LabelsComputed | analysis/technical_indicators.py:37-103 | on success every input column stays in place, possibly renamed to an OHLCV name, and every indicator column is present |
| Indicators.DistinctColumnsCompute | analysis/technical_indicators.py:37-101 | with five distinct mapped columns the frame is computed unless the library raises |
| Indicators.DistinctRenamesResolve | analysis/technical_indicators.py:38-44 | five distinct mapped columns rename to frames holding High, Low, Close and Volume |
| Indicators.SharedCloseVolumeFallsBack | autotrading.py:74-92 | a column matching both 'close' and 'volume' completes the mapping but renames only to Volume, so reading Close fails and the input comes back unchanged (same code in enhanced_trading_with_indicators.py and analysis/technical_indicators.py) |
| Indicators.AddPresent | analysis/technical_indicators.py:118-120 | the loop appends exactly the listed indicators the row holds, in list order |
| Indicators.GetLatestIndicators | analysis/technical_indicators.py:105-134 | None exactly for an empty frame; otherwise the listed indicators present in the last row, in the order of the three lists |
| Indicators.PresentAppend | analysis/technical_indicators.py:116-132 | reading several lists in turn reads their concatenation |
| Indicators.PresentExact | analysis/technical_indicators.py:116-132 | exactly the listed names that are columns appear, each with its cell |
| Indicators.GreaterTrichotomy | analysis/technical_indicators.py:159-164 | two floats never compare greater both ways, and compare neither way exactly when equal or NaN |
| Indicators.AnalyzeTechnicalSignals | analysis/technical_indicators.py:136-184 | the empty dict exactly for an empty frame |
| Indicators.SignalDefaults | analysis/technical_indicators.py:148-182 | without indicator columns the signals are neutral RSI, neutral MACD, middle band and a weak trend |
| Indicators.NaNSignals | analysis/technical_indicators.py:148-182 | NaN indicators fall through to neutral, neutral, middle and a neutral trend |
| Indicators.MacdMirror | analysis/technical_indicators.py:156-164 | swapping MACD and its signal swaps bullish and bearish; neutral exactly when equal or NaN |
| Indicators.RsiMonotone | analysis/technical_indicators.py:147-154 | a higher RSI never gives a lower band, and neutral is exactly 30 to 70 inclusive |
| Scheduler.DailyWindowMeaning | scheduler.py:54-57 | the daily window exists exactly from 0001-01-02 on and covers the whole of yesterday |
| Scheduler.WeeklyWindowMeaning | scheduler.py:75-82 | the weekly window covers a whole Monday-to-Sunday week ending the day before this week's Monday |
| Scheduler.MonthlyWindowMeaning | scheduler.py:101-115 | the monthly window covers the whole previous month, and is missing exactly in January of year 1 or when today's day of the month does not exist in the previous month |
| Scheduler.LongDayHasNoMonthlyWindow | scheduler.py:101-105 | on 31 March no monthly reflection is attempted, while 31 January works |
| Scheduler.OrdinalBound | scheduler.py:55 | a valid date's ordinal lies between 1 and that of 9999-12-31 |
| Scheduler.DaysBeforeMonthBound | scheduler.py:107-111 | the days before a month plus its length fit in the year |
| Scheduler.DaysBeforeYearMonotone | scheduler.py:103 | a later year starts no earlier |
| Scheduler.ShiftDay | scheduler.py:55 | subtracting k whole days moves the day by k |
| Scheduler.LastWeekdays | scheduler.py:77-79 | going back weekday + 7 days lands on a Monday, and six days on is a Sunday |
| Scheduler.RunReflection | scheduler.py:59-68 | a reflection runs exactly when the window could be computed, its result is the database's availability and it writes the rows of the window; otherwise nothing changes |
| Scheduler.DailyReflection | scheduler.py:49-68 | yesterday's reflections are written when the window exists; nothing otherwise |
| Scheduler.WeeklyReflection | scheduler.py:70-93 | last week's reflections are written when the window exists; nothing otherwise |
| Scheduler.MonthlyReflection | scheduler.py:95-126 | last month's reflections are written when the window exists; the ValueError case writes nothing |
| Scheduler.WrittenInsideWindow | scheduler.py:60 | every reflection written is about a trade inside the window and tagged with the job's kind; at most one metrics row |
| Scheduler.Registry.Register | scheduler.py:30 | registering appends the job to the list |
| Scheduler.RegisteredCount | scheduler.py:28-47 | at most the five registrations are made |
| Scheduler.SetupScheduler | scheduler.py:26-47 | the registrations before the failing one are appended in order, and setup succeeds exactly when all five are made |
| Scheduler.MonthlyRegistrationFailure | scheduler.py:30-36 | a failing monthly registration leaves the daily and Sunday jobs and nothing after them |
| ImageOptimizer.Truncate | data/screenshot.py:39-40 | `int()` of a non-negative float is its whole part |
| ImageOptimizer.ScaledWithin | data/screenshot.py:38-40 | a side scaled by at most 1920/side is at most 1920 |
| ImageOptimizer.ResizedWithin | data/screenshot.py:36-42 | after the resize step both sides are at most 1920 (and at least 1 for a resized image), an image within bounds is untouched, and an oversize image fails exactly when a side is 0 or truncates to 0 after scaling |
| ImageOptimizer.ThinImageFails | data/screenshot.py:37-41 | a 3841×1 screenshot scales its height to 0, so the resize raises |
| ImageOptimizer.SearchMeaning | data/screenshot.py:48-60 | the search ends at the start quality lowered by a multiple of 5, with the bytes encoded there; every quality passed was above 10 and too large; the result is too large only at quality 10 or less |
| ImageOptimizer.OutputBuffer.Clear | data/screenshot.py:50-51 | seek and truncate empty the buffer |
| ImageOptimizer.OutputBuffer.Write | data/screenshot.py:53 | saving appends the encoded bytes |
| ImageOptimizer.OptimizeImage | data/screenshot.py:22-86 | failure (a decode error, a zero-sized file, a resize or encoder error) returns the file's own bytes; success returns the bytes and quality of the search on the resized image, with the original and optimized sizes in MB and the compression ratio |

## Left out

- Network and API calls: pyupbit prices, balances and orders, the OpenAI chat and vision calls, SerpAPI and the Fear & Greed fetch are parameters (`Account.Fetch`, `Execution.OrderResponse`, `AiAnalysis.AnalyzeMarketSentiment`'s reply), never performed.
- MySQL plumbing: connecting, the DDL and per-statement failures on a live connection are not modelled; the database is either available (every INSERT succeeds) or not, so "a reflection attempted after a failed save" cannot arise in the model.
- DATETIME storage: instants are exact microsecond counts, so MySQL's rounding of stored timestamps to whole seconds is not modelled.
- Sorting.SortDescCorrect: `ORDER BY` leaves the order of equal timestamps to the server; the model returns equal timestamps in reverse insertion order (the ascending sort keeps insertion order and the descending one is its reverse).
- Reflection.Fixed2: Python's `{:.2f}` rounds the binary float, the model rounds the exact real half away from zero, so digits can differ on ties.
- Prints, logging and f-string console output are left out, including the grade printout of the variant `get_investment_status` copies and the order listing loops that only print.
- The `time.sleep(3)` after an order and the account re-read that follows it (trading/execution.py:96-103, autotrading.py:1018-1024) only print, so they are left out.
- JSON columns written as `{}` or `json.dumps` of a cleaned value are modelled as values, not as their JSON text; the dumped text's formatting is not modelled.
- Text.Lower: lowercases ASCII letters only; Python's full Unicode case mapping is not modelled (the keywords the classifier looks for are Korean and ASCII).
- DecisionModels.Validate: pydantic's type coercion (a numeric string for a float, for instance) and the validation of the nested records are not modelled; fields are present or absent, already of their declared types, and only the presence of each field and the confidence range are checked.
- Settings.ParseInt: `int()` also accepts surrounding whitespace, digit-group underscores and non-ASCII Unicode decimal digits (Arabic-Indic or full-width digits, for instance); the model accepts only an optional sign and ASCII decimal digits.
- Calendar: datetime arithmetic is exact on proleptic Gregorian ordinals from year 1 to 9999; the OverflowError and ValueError cases of the scheduler's windows are modelled as missing windows and the OverflowError of the learning window as the empty result; time zones are not modelled (see Queries.StatisticsWindow for the one window whose overflow is not modelled).
- Float behaviour: IEEE rounding is replaced by exact `real` arithmetic; NaN and the infinities appear only where the code tests or cleans them (the JSON cleaner and the indicator cells), so a NaN confidence reaching pydantic is not modelled.
- News: a news entry that is not a dict, or lacks 'title' or 'snippet', makes the lookup raise; such entries are not modelled and every item carries both texts.
- Indicators.CalculateTechnicalIndicators: the `ta` library's numerics are not modelled; whether its computations raise on the given rows is the parameter `libraryRaises`, and only the column labels of the returned frame are modelled.
- Ledger.DecisionCountsExact: every table uses `COLLATE=utf8mb4_unicode_ci` (database/connection.py:83), under which `GROUP BY decision` merges decisions differing only in letter case, accents or trailing spaces ('Buy' and 'buy' form one group); the model groups by exact string. The program writes the decisions it receives as they come, so this only matters for answers that vary in case.
- Queries.WithLevel: `level = %s` under the same collation is case-insensitive and ignores trailing spaces, so `get_system_logs(level='info')` also returns 'INFO' rows; the model compares levels exactly.
- Queries.StatisticsWindow: `datetime.now() - timedelta(days=days)` (database/query.py:84) raises OverflowError when the window reaches before year 1 or after year 9999, and `except Error` does not catch it; the model computes the window bound on unbounded integers and returns statistics there.
- Reflection.CreateImmediateReflection: dict keys in market data are strings; a tuple or other non-string, non-numeric key, which makes `json.dumps` raise, is not modelled. The same restriction is what TradeRecorder.StoredMarketDataIsJson relies on for "the NULL fallback is never taken".
- Account.GetRecentOrders: a pass-through of the exchange's answer ([] when it is None or the call raises); it is a helper with no property of its own.
- Indicators: frames with duplicate column labels (which pandas allows) are not modelled.
- Scheduler: the learning-pattern and strategy-improvement jobs (scheduler.py:128 onward) and the `run` polling loop are not modelled; the jobs' bodies are the `Reflection` operations they call.
- Scheduler.SetupScheduler: whether the `schedule` library accepts a registration (for instance whether `every().month` exists) is library behaviour; the registration that raises, if any, is the parameter `failsAt`.
- ImageOptimizer.OptimizeImage: PIL's decoding, RGB conversion, LANCZOS resampling and JPEG encoding are not modelled; decoding is given as its result and the encoder is a parameter.
- Selenium screen capture, the dashboards and viewers, the interactive and live-trade scripts, `main.py` and the AWS setup script are not modelled: they are I/O or presentation.
- The callers (`main.py` and the trading-cycle functions at the end of `autotrading.py`) and their `except Exception` handlers are not modelled; the `Err` the ExecuteTradingDecision routines return is the exception those handlers catch and log.
- `get_market_data_history` and the other query helpers that only select rows for display are not modelled.

## Findings

Each routine is modelled as written; the corrected definition is placed beside it with the intended property proved about it.

| source | as written | input that shows it | evidently intended | confidence | as-written member | corrected member |
|---|---|---|---|---|---|---|
| database/query.py:119-132 | `buy_total` sums the purchases negated, so `profit = sell − buy_total − fee` adds the purchases back and `profit_rate` is guarded by `buy_total > 0`, which never holds | one buy of 100,000 KRW with a 50 KRW fee in the last 30 days reports a profit of 99,950 and a rate of 0 | profit = sales − purchases − fees, i.e. −100,050, with rate −100.05 % | not executed | Queries.SingleBuyReportsProfit | Queries.CorrectedProfitMeaning |
| advanced_ai_trading.py:386-401 | with BTC held and no KRW, a failed price request sets the price to 0 and `btc_value / total_assets` divides by zero outside any try | KRW balance None, 0.5 BTC, price None | report a total of 0 and a BTC share of 0 | not executed | FeeBufferedTrading.FullyInvestedWithoutPriceFails | FeeBufferedTrading.StatusCorrectedMeaning |
| advanced_ai_trading.py:922-927 | the sell test divides the 5000 KRW minimum by the price, so a price of 0 raises ZeroDivisionError before any order | a 'sell' decision with current price 0 | compare the holding's value with the minimum and send nothing at price 0 | not executed | FeeBufferedTrading.SellAtZeroPriceFails | FeeBufferedTrading.SellPlanCorrectedMeaning |
