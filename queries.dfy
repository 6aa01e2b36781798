// database/query.py: the read-only SELECTs over the trades and system_logs
// tables, as filters, sorts, limits and folds over the rows. Each query
// takes whether a connection could be had and the table's rows.
module Queries {
  import opened Wrappers
  import opened Ledger
  import opened Sorting
  import Calendar

  function Timestamp(r: TradeRow): int { r.timestamp }
  function LogTimestamp(r: LogRow): int { r.timestamp }

  /** `LIMIT n`: the first n rows; a negative limit is an SQL error. */
  function Limit<T>(rows: seq<T>, n: int): (r: Option<seq<T>>)
    ensures r.Some? <==> n >= 0
    ensures r.Some? ==> |r.value| == if n < |rows| then n else |rows|
    ensures r.Some? ==> r.value == rows[..|r.value|]
  {
    if n < 0 then None else if n < |rows| then Some(rows[..n]) else Some(rows)
  }

  /** get_recent_trades (database/query.py:18-44): at most `limit` rows, newest first; [] without a connection or on an SQL error. */
  function GetRecentTrades(connected: bool, trades: seq<TradeRow>, limit: int): seq<TradeRow>
  {
    if !connected then [] else Limit(SortDesc(trades, Timestamp), limit).GetOr([])
  }

  lemma RecentTradesNewestFirst(trades: seq<TradeRow>, limit: int)
    requires limit >= 0
    ensures var r := GetRecentTrades(true, trades, limit);
      |r| == (if limit < |trades| then limit else |trades|)
      && SortedDesc(r, Timestamp)
      && multiset(r) <= multiset(trades)
    ensures GetRecentTrades(false, trades, limit) == []
  {
    SortDescCorrect(trades, Timestamp);
    var all := SortDesc(trades, Timestamp);
    var r := GetRecentTrades(true, trades, limit);
    assert all == r + all[|r|..];
    assert multiset(all) == multiset(r) + multiset(all[|r|..]);
  }

  /** Every row left out is no newer than every row returned. */
  lemma RecentTradesAreTheNewest(trades: seq<TradeRow>, limit: int)
    requires 0 <= limit
    ensures var r := GetRecentTrades(true, trades, limit);
      var all := SortDesc(trades, Timestamp);
      forall i, j :: 0 <= i < |r| <= j < |all| ==> r[i].timestamp >= all[j].timestamp
  {
    SortDescCorrect(trades, Timestamp);
  }

  /** `WHERE timestamp BETWEEN start AND end`: both ends included. */
  function Between(rows: seq<TradeRow>, start: int, end: int): (r: seq<TradeRow>)
    ensures forall i :: 0 <= i < |r| ==> start <= r[i].timestamp <= end
    ensures |r| <= |rows|
  {
    if rows == [] then []
    else
      var last := rows[|rows| - 1];
      Between(rows[..|rows| - 1], start, end) + (if start <= last.timestamp <= end then [last] else [])
  }

  /** BETWEEN keeps exactly the rows inside the closed interval. */
  lemma {:induction false} BetweenExact(rows: seq<TradeRow>, start: int, end: int, x: TradeRow)
    ensures multiset(Between(rows, start, end))[x] ==
      if start <= x.timestamp <= end then multiset(rows)[x] else 0
  {
    if rows != [] {
      var init, last := rows[..|rows| - 1], rows[|rows| - 1];
      BetweenExact(init, start, end, x);
      assert rows == init + [last];
      assert multiset(rows) == multiset(init) + multiset{last};
      var tail := if start <= last.timestamp <= end then [last] else [];
      assert Between(rows, start, end) == Between(init, start, end) + tail;
      assert multiset(Between(rows, start, end)) == multiset(Between(init, start, end)) + multiset(tail);
    }
  }

  /** get_trades_by_date_range (database/query.py:46-72): rows with start ≤ timestamp ≤ end, newest first. */
  function GetTradesByDateRange(connected: bool, trades: seq<TradeRow>, start: int, end: int): seq<TradeRow>
  {
    if !connected then [] else SortDesc(Between(trades, start, end), Timestamp)
  }

  lemma DateRangeExact(trades: seq<TradeRow>, start: int, end: int, x: TradeRow)
    ensures var r := GetTradesByDateRange(true, trades, start, end);
      SortedDesc(r, Timestamp)
      && (forall i :: 0 <= i < |r| ==> start <= r[i].timestamp <= end)
      && multiset(r)[x] == (if start <= x.timestamp <= end then multiset(trades)[x] else 0)
  {
    SortDescCorrect(Between(trades, start, end), Timestamp);
    BetweenExact(trades, start, end, x);
    var r := GetTradesByDateRange(true, trades, start, end);
    forall i | 0 <= i < |r| ensures start <= r[i].timestamp <= end {
      assert r[i] in multiset(Between(trades, start, end));
    }
  }

  /** `WHERE timestamp >= since`. */
  function Since(rows: seq<TradeRow>, since: int): (r: seq<TradeRow>)
    ensures forall i :: 0 <= i < |r| ==> r[i].timestamp >= since
  {
    if rows == [] then []
    else Since(rows[..|rows| - 1], since) + (if rows[|rows| - 1].timestamp >= since then [rows[|rows| - 1]] else [])
  }

  /** `WHERE action = a`. */
  function WithAction(rows: seq<TradeRow>, a: string): (r: seq<TradeRow>)
    ensures forall i :: 0 <= i < |r| ==> r[i].action == a
  {
    if rows == [] then []
    else WithAction(rows[..|rows| - 1], a) + (if rows[|rows| - 1].action == a then [rows[|rows| - 1]] else [])
  }

  function NegatedTotalValue(r: TradeRow): real { -r.totalValue }

  datatype QueryStatistics = QueryStatistics(
    periodDays: int, totalTrades: nat, decisionCounts: map<string, nat>,
    totalValue: real, totalFee: real, buyTotal: real, sellTotal: real,
    profit: real, profitRate: real)

  /** The rows a statistics query with a `days` window looks at. */
  function Window(trades: seq<TradeRow>, now: int, days: int): seq<TradeRow>
  {
    Since(trades, now - days * Calendar.MicrosPerDay)
  }

  /**
   * get_trade_statistics as written (database/query.py:74-150); None stands
   * for the empty dict returned without a connection.
   */
  function GetTradeStatistics(connected: bool, trades: seq<TradeRow>, now: int, days: int): Option<QueryStatistics>
  {
    if !connected then None
    else
      var w := Window(trades, now, days);
      var buys := WithAction(w, "buy");
      var sells := WithAction(w, "sell");
      var totalFee := SumOf(w, FeeOf);
      var buyTotal := SumOf(buys, NegatedTotalValue);
      var sellTotal := SumOf(sells, TotalValueOf);
      var profit := sellTotal - buyTotal - totalFee;
      Some(QueryStatistics(
        days, |w|, DecisionCounts(w),
        SumOf(buys, TotalValueOf) + SumOf(sells, TotalValueOf), totalFee,
        buyTotal, sellTotal, profit,
        if buyTotal > 0.0 then profit / buyTotal * 100.0 else 0.0))
  }

  lemma {:induction false} SumOfNegated(rows: seq<TradeRow>)
    ensures SumOf(rows, NegatedTotalValue) == -SumOf(rows, TotalValueOf)
  {
    if rows != [] {
      SumOfNegated(rows[..|rows| - 1]);
    }
  }

  /** The statistics only look at rows stamped at or after now − days, grouped by decision (database/query.py:84-101). */
  lemma StatisticsWindow(trades: seq<TradeRow>, now: int, days: int)
    ensures var s := GetTradeStatistics(true, trades, now, days).value;
      var w := Window(trades, now, days);
      s.totalTrades == |w|
      && (forall i :: 0 <= i < |w| ==> w[i].timestamp >= now - days * Calendar.MicrosPerDay)
      && (forall d :: d in s.decisionCounts ==> s.decisionCounts[d] == CountDecision(w, d))
      && (forall d :: d in s.decisionCounts <==> CountDecision(w, d) > 0)
    ensures GetTradeStatistics(false, trades, now, days).None?
  {
    DecisionCountsExact(Window(trades, now, days));
  }

  /**
   * buy_total sums −total_value, so with non-negative order values it is
   * never positive: profit_rate is always 0 and profit adds the buy volume
   * instead of subtracting it (database/query.py:119-132).
   */
  lemma ProfitRateAlwaysZero(trades: seq<TradeRow>, now: int, days: int)
    requires forall r :: r in trades ==> r.totalValue >= 0.0
    ensures var s := GetTradeStatistics(true, trades, now, days).value;
      var w := Window(trades, now, days);
      s.buyTotal <= 0.0 && s.profitRate == 0.0
      && s.profit == s.sellTotal + SumOf(WithAction(w, "buy"), TotalValueOf) - s.totalFee
  {
    var w := Window(trades, now, days);
    var buys := WithAction(w, "buy");
    SumOfNegated(buys);
    SinceSubset(trades, now - days * Calendar.MicrosPerDay);
    WithActionSubset(w, "buy");
    SumOfNonNegative(buys, TotalValueOf);
  }

  lemma {:induction false} SinceSubset(rows: seq<TradeRow>, since: int)
    ensures forall x :: x in Since(rows, since) ==> x in rows
  {
    if rows != [] {
      SinceSubset(rows[..|rows| - 1], since);
    }
  }

  lemma {:induction false} WithActionSubset(rows: seq<TradeRow>, a: string)
    ensures forall x :: x in WithAction(rows, a) ==> x in rows
  {
    if rows != [] {
      WithActionSubset(rows[..|rows| - 1], a);
    }
  }

  function Row(id: int, action: string, value: real, fee: real): TradeRow
  {
    TradeRow(id, 0, action, action, 0.0, 0.0, value, fee, 0.0, 0.0, "", "executed", 0.0, "", None)
  }

  /**
   * A single buy of 100,000 KRW with a fee of 50 and no sale: the query as
   * written reports a profit of 99,950 where the account has spent 100,050.
   */
  lemma SingleBuyReportsProfit()
    ensures var s := GetTradeStatistics(true, [Row(1, "buy", 100000.0, 50.0)], 0, 30).value;
      s.profit == 99950.0 && s.profitRate == 0.0
  {
    var rows := [Row(1, "buy", 100000.0, 50.0)];
    assert rows[..0] == [];
    assert Since(rows, 0 - 30 * Calendar.MicrosPerDay) == Since([], 0 - 30 * Calendar.MicrosPerDay) + [rows[0]];
    assert Window(rows, 0, 30) == rows;
    assert WithAction(rows, "buy") == rows;
    assert WithAction(rows, "sell") == [];
  }

  /** Profit as evidently intended: sale proceeds minus purchase cost minus fees, and its rate over the cost. */
  function CorrectedProfit(trades: seq<TradeRow>, now: int, days: int): (r: (real, real))
  {
    var w := Window(trades, now, days);
    var bought := SumOf(WithAction(w, "buy"), TotalValueOf);
    var sold := SumOf(WithAction(w, "sell"), TotalValueOf);
    var profit := sold - bought - SumOf(w, FeeOf);
    (profit, if bought > 0.0 then profit / bought * 100.0 else 0.0)
  }

  /**
   * The corrected profit is what the window's trades did to the cash
   * balance: with no sales it is never positive, and it differs from the
   * as-written profit by twice the buy volume.
   */
  lemma CorrectedProfitMeaning(trades: seq<TradeRow>, now: int, days: int)
    requires forall r :: r in trades ==> r.totalValue >= 0.0 && r.fee >= 0.0
    ensures var w := Window(trades, now, days);
      var bought := SumOf(WithAction(w, "buy"), TotalValueOf);
      var (profit, _) := CorrectedProfit(trades, now, days);
      (WithAction(w, "sell") == [] ==> profit <= 0.0)
      && GetTradeStatistics(true, trades, now, days).value.profit == profit + 2.0 * bought
  {
    var since := now - days * Calendar.MicrosPerDay;
    var w := Window(trades, now, days);
    SinceSubset(trades, since);
    WithActionSubset(w, "buy");
    SumOfNegated(WithAction(w, "buy"));
    SumOfNonNegative(WithAction(w, "buy"), TotalValueOf);
    SumOfNonNegative(w, FeeOf);
  }

  /** The single buy above: the corrected profit is −100,050, a loss of 100.05% of the cost. */
  lemma SingleBuyCorrected()
    ensures CorrectedProfit([Row(1, "buy", 100000.0, 50.0)], 0, 30) == (-100050.0, -100.05)
  {
    var rows := [Row(1, "buy", 100000.0, 50.0)];
    assert rows[..0] == [];
    assert Since(rows, 0 - 30 * Calendar.MicrosPerDay) == Since([], 0 - 30 * Calendar.MicrosPerDay) + [rows[0]];
    assert Window(rows, 0, 30) == rows;
    assert WithAction(rows, "buy") == rows;
    assert WithAction(rows, "sell") == [];
  }

  /** `WHERE level = l`. */
  function WithLevel(logs: seq<LogRow>, level: string): (r: seq<LogRow>)
    ensures forall i :: 0 <= i < |r| ==> r[i].level == level
  {
    if logs == [] then []
    else WithLevel(logs[..|logs| - 1], level) + (if logs[|logs| - 1].level == level then [logs[|logs| - 1]] else [])
  }

  /** get_system_logs (database/query.py:181-214): filtered by level only when a non-empty level is given. */
  function GetSystemLogs(connected: bool, logs: seq<LogRow>, level: Option<string>, limit: int): seq<LogRow>
  {
    if !connected then []
    else
      var rows := if level.Some? && level.value != "" then WithLevel(logs, level.value) else logs;
      Limit(SortDesc(rows, LogTimestamp), limit).GetOr([])
  }

  lemma SystemLogsFilter(logs: seq<LogRow>, level: string, limit: int)
    requires limit >= 0
    ensures level != "" ==> forall i :: 0 <= i < |GetSystemLogs(true, logs, Some(level), limit)| ==>
      GetSystemLogs(true, logs, Some(level), limit)[i].level == level
    ensures GetSystemLogs(true, logs, Some(""), limit) == GetSystemLogs(true, logs, None, limit)
    ensures |GetSystemLogs(true, logs, None, limit)| == if limit < |logs| then limit else |logs|
    ensures SortedDesc(GetSystemLogs(true, logs, None, limit), LogTimestamp)
  {
    SortDescCorrect(logs, LogTimestamp);
    var all := SortDesc(logs, LogTimestamp);
    var r := GetSystemLogs(true, logs, None, limit);
    assert r == all[..|r|];
    if level != "" {
      LevelRowsOnly(logs, level, limit);
    }
  }

  /** Sorting and limiting the rows of one level keeps only rows of that level. */
  lemma LevelRowsOnly(logs: seq<LogRow>, level: string, limit: int)
    requires limit >= 0 && level != ""
    ensures forall i :: 0 <= i < |GetSystemLogs(true, logs, Some(level), limit)| ==>
      GetSystemLogs(true, logs, Some(level), limit)[i].level == level
  {
    var rows := WithLevel(logs, level);
    SortDescCorrect(rows, LogTimestamp);
    var all := SortDesc(rows, LogTimestamp);
    var r := GetSystemLogs(true, logs, Some(level), limit);
    assert r == all[..|r|];
    forall i | 0 <= i < |r| ensures r[i].level == level {
      assert r[i] == all[i];
      assert all[i] in multiset(rows);
    }
  }
}
