// config/settings.py: trading and analysis constants, the two config
// getters, the API-key check and the database port setting.
module Settings {
  import opened Wrappers

  const TradingSymbol: string := "KRW-BTC"
  /** Smallest order the exchange accepts, in KRW. */
  const MinTradeAmount: real := 5000.0
  /** Share of the available balance put into one order. */
  const TradeRatio: real := 0.95
  /** Exchange fee per order, as a fraction of its value. */
  const FeeRate: real := 0.0005

  const DailyDataCount: int := 30
  const MinuteDataCount: int := 1440
  const TechnicalIndicators: seq<string> := [
    "SMA_20", "SMA_50", "EMA_12", "EMA_26",
    "MACD", "MACD_Signal", "MACD_Histogram",
    "RSI", "BB_Upper", "BB_Middle", "BB_Lower",
    "Stoch_K", "Stoch_D", "Williams_R", "ATR",
    "ADX", "OBV", "ROC", "CCI"
  ]

  const NewsCount: int := 20
  const ScreenshotWindowSize: (int, int) := (1920, 1080)
  const ScreenshotMaxSizeMb: real := 2.0
  const ScreenshotQuality: int := 85

  /** Seconds between two analysis rounds. */
  const AnalysisInterval: int := 300
  const NewsAnalysisInterval: int := 1800
  const DefaultDbPort: int := 3306

  datatype TradingConfig = TradingConfig(symbol: string, minAmount: real, tradeRatio: real, feeRate: real)
  datatype AnalysisConfig = AnalysisConfig(dailyCount: int, minuteCount: int, indicators: seq<string>)

  /** get_trading_config (config/settings.py:72-79). */
  function GetTradingConfig(): (c: TradingConfig)
    ensures c.symbol == "KRW-BTC" && c.minAmount == 5000.0
    ensures c.tradeRatio == 0.95 && c.feeRate == 0.0005
    ensures 0.0 < c.tradeRatio <= 1.0 && 0.0 <= c.feeRate < 1.0
  {
    TradingConfig(TradingSymbol, MinTradeAmount, TradeRatio, FeeRate)
  }

  /** get_analysis_config (config/settings.py:81-87): a day of minute candles and a month of daily ones. */
  function GetAnalysisConfig(): (c: AnalysisConfig)
    ensures c.dailyCount == 30 && c.minuteCount == 24 * 60
    ensures c.indicators == TechnicalIndicators && |c.indicators| == 19
  {
    AnalysisConfig(DailyDataCount, MinuteDataCount, TechnicalIndicators)
  }

  /** An environment variable counts as set when it is present and non-empty. */
  predicate IsSet(v: Option<string>)
  {
    v.Some? && v.value != ""
  }

  /** The names validate_api_keys reports as missing, in the order it checks them. */
  function MissingKeys(access: Option<string>, secret: Option<string>, openai: Option<string>): seq<string>
  {
    (if IsSet(access) then [] else ["UPBIT_ACCESS_KEY"])
    + (if IsSet(secret) then [] else ["UPBIT_SECRET_KEY"])
    + (if IsSet(openai) then [] else ["OPENAI_API_KEY"])
  }

  /**
   * validate_api_keys (config/settings.py:56-70): Err carries the missing
   * names the ValueError lists; Ok(true) when all three keys are set.
   */
  method ValidateApiKeys(access: Option<string>, secret: Option<string>, openai: Option<string>)
    returns (r: Result<bool, seq<string>>)
    ensures r.Ok? <==> IsSet(access) && IsSet(secret) && IsSet(openai)
    ensures r.Ok? ==> r.value
    ensures r.Err? ==> r.error == MissingKeys(access, secret, openai) && r.error != []
  {
    var missing: seq<string> := [];
    if !IsSet(access) {
      missing := missing + ["UPBIT_ACCESS_KEY"];
    }
    if !IsSet(secret) {
      missing := missing + ["UPBIT_SECRET_KEY"];
    }
    if !IsSet(openai) {
      missing := missing + ["OPENAI_API_KEY"];
    }
    if missing != [] {
      return Err(missing);
    }
    return Ok(true);
  }

  /** Each key is reported exactly when it is unset, and the report keeps the order access, secret, openai. */
  lemma MissingKeysExact(access: Option<string>, secret: Option<string>, openai: Option<string>)
    ensures var m := MissingKeys(access, secret, openai);
      ("UPBIT_ACCESS_KEY" in m <==> !IsSet(access))
      && ("UPBIT_SECRET_KEY" in m <==> !IsSet(secret))
      && ("OPENAI_API_KEY" in m <==> !IsSet(openai))
      && |m| <= 3
      && (forall i, j :: 0 <= i < j < |m| ==> KeyRank(m[i]) < KeyRank(m[j]))
  {
  }

  /** Position of a required key in the order validate_api_keys checks them. */
  function KeyRank(k: string): int
  {
    if k == "UPBIT_ACCESS_KEY" then 0 else if k == "UPBIT_SECRET_KEY" then 1 else 2
  }

  function DigitValue(c: char): int
  {
    (c as int) - ('0' as int)
  }

  predicate IsDigit(c: char)
  {
    '0' <= c <= '9'
  }

  predicate IsDecimal(s: string)
  {
    s != [] && forall i :: 0 <= i < |s| ==> IsDigit(s[i])
  }

  /** The value of a string of decimal digits. */
  function DecimalValue(s: string): (n: nat)
    requires IsDecimal(s)
  {
    if |s| == 1 then DigitValue(s[0])
    else DecimalValue(s[..|s| - 1]) * 10 + DigitValue(s[|s| - 1])
  }

  /** The decimal digits of `n`, without leading zeros. */
  function DecimalString(n: nat): (s: string)
    ensures IsDecimal(s)
  {
    if n < 10 then [('0' as int + n) as char]
    else DecimalString(n / 10) + [('0' as int + n % 10) as char]
  }

  /** `int(s)` for a plain, possibly signed, string of decimal digits; anything else raises ValueError. */
  function ParseInt(s: string): (r: Option<int>)
    ensures r.Some? <==> IsDecimal(s) || (|s| > 1 && (s[0] == '+' || s[0] == '-') && IsDecimal(s[1..]))
  {
    if IsDecimal(s) then Some(DecimalValue(s))
    else if |s| > 1 && s[0] == '+' && IsDecimal(s[1..]) then Some(DecimalValue(s[1..]))
    else if |s| > 1 && s[0] == '-' && IsDecimal(s[1..]) then Some(0 - DecimalValue(s[1..]) as int)
    else None
  }

  /** DB_PORT (config/settings.py:51): the variable's value parsed as an int, 3306 when unset. */
  function DbPort(env: Option<string>): (r: Option<int>)
  {
    ParseInt(env.GetOr("3306"))
  }

  /** Reading back the digits of a number gives the number. */
  lemma {:induction false} DecimalRoundTrip(n: nat)
    ensures DecimalValue(DecimalString(n)) == n
  {
    if n >= 10 {
      var s := DecimalString(n);
      assert s[..|s| - 1] == DecimalString(n / 10);
      DecimalRoundTrip(n / 10);
    }
  }

  /** An unset DB_PORT gives 3306; a port written in decimal is read back as itself. */
  lemma DbPortParses(port: nat)
    ensures DbPort(None) == Some(DefaultDbPort)
    ensures DbPort(Some(DecimalString(port))) == Some(port)
    ensures DbPort(Some("")) == None
  {
    DecimalRoundTrip(port);
    DecimalRoundTrip(3306);
    assert DecimalString(3306) == "3306";
  }
}
