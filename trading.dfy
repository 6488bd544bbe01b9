/**
 * The estimate of the offline trading-analysis script: the average CPAS of the
 * last thirty days, adjusted for the number of jobs and then for the market
 * seasonality of a month given by its three-letter abbreviation.
 */
module Trading {
  import opened Common
  import opened Numeric
  import Seasonality

  /** `get_number_of_jobs()`: the number typed in, or 1 when it is not an integer. */
  function NumberOfJobs(parsed: Option<int>): (n: int)
    ensures parsed.None? ==> n == 1
    ensures parsed.Some? ==> n == parsed.value
  {
    match parsed
    case None => 1
    case Some(k) => k
  }

  /** `min(1.2, 0.8 + (n / 50) * 0.4)` when `n` is truthy, and 1.0 when it is zero. */
  function QualityAdjustment(n: int): real
  {
    if n != 0 then Min(1.2, 0.8 + (n as real / 50.0) * 0.4) else 1.0
  }

  /** The adjustment never exceeds 1.2, and reaches it from fifty jobs on. */
  lemma AdjustmentCapped(n: int)
    ensures QualityAdjustment(n) <= 1.2
    ensures n >= 50 ==> QualityAdjustment(n) == 1.2
    ensures n < 50 && n != 0 ==> QualityAdjustment(n) == 0.8 + (n as real / 50.0) * 0.4
  {
  }

  /** For one job or more it lies in (0.8, 1.2]. */
  lemma AdjustmentRangeForJobs(n: int)
    requires n >= 1
    ensures 0.8 < QualityAdjustment(n) <= 1.2
  {
    assert (n as real / 50.0) * 0.4 > 0.0;
  }

  /** Zero jobs take the falsy branch: exactly 1.0, above the formula's 0.8 and above the
      adjustment for one job, so the adjustment is non-decreasing on either side of zero
      but not across it. */
  lemma ZeroJobsIsNeutral()
    ensures QualityAdjustment(0) == 1.0
    ensures 0.8 + (0.0 / 50.0) * 0.4 == 0.8
    ensures QualityAdjustment(1) < QualityAdjustment(0)
  {
  }

  lemma AdjustmentMonotone(n: int, m: int)
    requires n <= m
    requires (n >= 1 && m >= 1) || (n < 0 && m < 0)
    ensures QualityAdjustment(n) <= QualityAdjustment(m)
  {
    assert (n as real / 50.0) * 0.4 <= (m as real / 50.0) * 0.4;
  }

  /** The adjustment is zero only at `n = -100`. */
  lemma AdjustmentZeroAt(n: int)
    ensures QualityAdjustment(n) == 0.0 <==> n == -100
  {
    if QualityAdjustment(n) == 0.0 {
      assert n != 0;
      assert 0.8 + (n as real / 50.0) * 0.4 == 0.0;
      assert n as real == -100.0;
    }
  }

  /** `avg_cpas * (1 / quality_adjustment)`; the division raises when the adjustment is 0. */
  function EstimatedCpas(avgCpas: real, n: int): (r: Result<real, string>)
    ensures r.Err? <==> n == -100
    ensures r.Ok? ==> r.value * QualityAdjustment(n) == avgCpas
  {
    AdjustmentZeroAt(n);
    var adjustment := QualityAdjustment(n);
    if adjustment == 0.0 then Err("float division by zero")
    else Ok(avgCpas * (1.0 / adjustment))
  }

  /** The script's own month table. */
  const MARKET_SEASONALITY: map<string, real> :=
    map["Jan" := 0.9, "Feb" := 0.95, "Mar" := 1.0, "Apr" := 1.05, "May" := 1.1, "Jun" := 1.2,
        "Jul" := 1.15, "Aug" := 1.1, "Sep" := 1.0, "Oct" := 1.05, "Nov" := 1.2, "Dec" := 1.3]

  /** It is the same table the forecasting API defines in `job_impact_scenarios`. */
  lemma SameTableAsApi()
    ensures MARKET_SEASONALITY == Seasonality.MARKET_SEASONALITY
  {
  }

  /** `estimated_cpas * market_seasonality.get(selected_month, 1.0)` */
  function SeasonalityAdjustedCpas(estimate: real, month: string): (r: real)
    ensures month !in MARKET_SEASONALITY ==> r == estimate
    ensures 0.0 <= estimate ==> 0.9 * estimate <= r <= 1.3 * estimate
    ensures estimate < 0.0 ==> 1.3 * estimate <= r <= 0.9 * estimate
  {
    SameTableAsApi();
    var factor := Seasonality.MarketFactor(month);
    assert 0.9 <= factor <= 1.3;
    ScaledBetween(estimate, factor, 0.9, 1.3);
    estimate * factor
  }

  lemma ScaledBetween(x: real, f: real, lo: real, hi: real)
    requires lo <= f <= hi
    ensures 0.0 <= x ==> lo * x <= x * f <= hi * x
    ensures x < 0.0 ==> hi * x <= x * f <= lo * x
  {
  }

  /** The lookup is exact: a lower-case or full month name earns no seasonality. */
  lemma MonthNamesAreCaseSensitive(estimate: real)
    ensures SeasonalityAdjustedCpas(estimate, "jan") == estimate
    ensures SeasonalityAdjustedCpas(estimate, "January") == estimate
    ensures SeasonalityAdjustedCpas(estimate, "Dec") == 1.3 * estimate
  {
    assert "jan" !in MARKET_SEASONALITY && "January" !in MARKET_SEASONALITY;
  }
}
