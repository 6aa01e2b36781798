// analysis/models.py: the structured-output records the AI decision is
// parsed into, and the one constraint pydantic enforces on them.
module DecisionModels {
  import opened Wrappers

  /** Six free-form signal strings (analysis/models.py:9-15). */
  datatype KeyIndicators = KeyIndicators(
    rsiSignal: string, macdSignal: string, bbSignal: string,
    trendStrength: string, marketSentiment: string, newsSentiment: string)

  /** analysis/models.py:17-22: the three levels and the pattern may be null. */
  datatype ChartAnalysis = ChartAnalysis(
    priceAction: string, supportLevel: Option<string>, resistanceLevel: Option<string>,
    chartPattern: Option<string>, volumeAnalysis: string)

  /** analysis/models.py:24-26: two independent floats. */
  datatype ExpectedPriceRange = ExpectedPriceRange(min: real, max: real)

  datatype TradingDecision = TradingDecision(
    decision: string, reason: string, confidence: real, riskLevel: string,
    expectedPriceRange: ExpectedPriceRange, keyIndicators: KeyIndicators,
    chartAnalysis: Option<ChartAnalysis>)

  /**
   * The fields of a decision as the model answer supplies them, before
   * validation; `None` is a field that is absent. chart_analysis is
   * `Optional[ChartAnalysis]` with no default, so under pydantic 2 it must be
   * present but may be null: `Some(None)` is an explicit null.
   */
  datatype RawDecision = RawDecision(
    decision: Option<string>, reason: Option<string>, confidence: Option<real>,
    riskLevel: Option<string>, expectedPriceRange: Option<ExpectedPriceRange>,
    keyIndicators: Option<KeyIndicators>, chartAnalysis: Option<Option<ChartAnalysis>>)

  /** The names of the fields that fail validation, in declaration order. */
  function ValidationErrors(raw: RawDecision): seq<string>
  {
    (if raw.decision.None? then ["decision"] else [])
    + (if raw.reason.None? then ["reason"] else [])
    + (if raw.confidence.None? || !(0.0 <= raw.confidence.value <= 1.0) then ["confidence"] else [])
    + (if raw.riskLevel.None? then ["risk_level"] else [])
    + (if raw.expectedPriceRange.None? then ["expected_price_range"] else [])
    + (if raw.keyIndicators.None? then ["key_indicators"] else [])
    + (if raw.chartAnalysis.None? then ["chart_analysis"] else [])
  }

  /** Building a TradingDecision from the raw fields: it succeeds exactly when no field fails. */
  function Validate(raw: RawDecision): (r: Result<TradingDecision, seq<string>>)
    ensures r.Ok? <==> ValidationErrors(raw) == []
    ensures r.Ok? ==> 0.0 <= r.value.confidence <= 1.0
    ensures r.Ok? ==> Some(r.value.decision) == raw.decision && Some(r.value.reason) == raw.reason
    ensures r.Ok? ==> raw.chartAnalysis == Some(r.value.chartAnalysis)
    ensures r.Err? ==> r.error == ValidationErrors(raw)
  {
    if ValidationErrors(raw) != [] then Err(ValidationErrors(raw))
    else Ok(TradingDecision(
      raw.decision.value, raw.reason.value, raw.confidence.value, raw.riskLevel.value,
      raw.expectedPriceRange.value, raw.keyIndicators.value, raw.chartAnalysis.value))
  }

  /** A decision written back out as its fields (`model_dump`). */
  function Dump(d: TradingDecision): RawDecision
  {
    RawDecision(Some(d.decision), Some(d.reason), Some(d.confidence), Some(d.riskLevel),
      Some(d.expectedPriceRange), Some(d.keyIndicators), Some(d.chartAnalysis))
  }

  /** Dumping and re-validating a decision gives it back exactly when its confidence is in range. */
  lemma DumpRoundTrip(d: TradingDecision)
    ensures Validate(Dump(d)) == Ok(d) <==> 0.0 <= d.confidence <= 1.0
    ensures !(0.0 <= d.confidence <= 1.0) ==> Validate(Dump(d)) == Err(["confidence"])
  {
    if !(0.0 <= d.confidence <= 1.0) {
      assert ValidationErrors(Dump(d)) == ["confidence"];
      assert Validate(Dump(d)) == Err(ValidationErrors(Dump(d)));
    }
  }

  /**
   * Only confidence is range-checked (analysis/models.py:29,31-32): any
   * decision and risk strings, an inverted price range and a null chart
   * analysis are all accepted.
   */
  lemma OnlyConfidenceIsConstrained(decision: string, risk: string, lo: real, hi: real, c: real, k: KeyIndicators)
    requires 0.0 <= c <= 1.0
    ensures Validate(RawDecision(Some(decision), Some(""), Some(c), Some(risk),
      Some(ExpectedPriceRange(lo, hi)), Some(k), Some(None))).Ok?
  {
  }

  /** chart_analysis has no default, so an answer that leaves it out is rejected (analysis/models.py:35). */
  lemma ChartAnalysisRequired(raw: RawDecision)
    requires raw.chartAnalysis.None?
    ensures Validate(raw).Err? && "chart_analysis" in Validate(raw).error
  {
  }

  /** Key indicators are required (analysis/models.py:34). */
  lemma KeyIndicatorsRequired(raw: RawDecision)
    requires raw.keyIndicators.None?
    ensures Validate(raw).Err? && "key_indicators" in Validate(raw).error
  {
  }

  /** A confidence of 1.5 is rejected whatever else the answer says (analysis/models.py:31). */
  lemma ConfidenceOutOfRangeRejected(raw: RawDecision)
    requires raw.confidence == Some(1.5) || raw.confidence == Some(-0.1)
    ensures Validate(raw).Err? && "confidence" in Validate(raw).error
  {
  }

  /**
   * A decision as the rest of the program reads it: a dict whose keys may be
   * absent. Model answers carry 'reason'; the recorder reads 'reasoning'.
   */
  datatype DecisionRecord = DecisionRecord(
    decision: Option<string>, confidence: Option<real>, reason: Option<string>, reasoning: Option<string>)

  /** The dict `model_dump()` gives for a validated decision (analysis/models.py:28-35). */
  function AsRecord(d: TradingDecision): (r: DecisionRecord)
    ensures r.decision == Some(d.decision) && r.confidence == Some(d.confidence)
    ensures r.reason == Some(d.reason) && r.reasoning.None?
  {
    DecisionRecord(Some(d.decision), Some(d.confidence), Some(d.reason), None)
  }
}
