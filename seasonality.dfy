/**
 * The month seasonality tables of the forecasting API. The API keeps two
 * numeric tables keyed by month number — one inside `get_seasonality_factor`,
 * one module-level constant — and one keyed by three-letter month name.
 */
module Seasonality {
  import opened Common
  import Calendar

  /** The table written inside `get_seasonality_factor`. */
  const DAY_SEASONALITY: map<int, real> :=
    map[6 := 1.0, 7 := 1.05, 8 := 1.10, 9 := 0.95, 10 := 0.90, 11 := 0.85,
        12 := 0.80, 1 := 0.90, 2 := 0.92, 3 := 0.95, 4 := 0.98, 5 := 1.00]

  /** The module-level `SEASONALITY_FACTORS`. */
  const SEASONALITY_FACTORS: map<int, real> :=
    map[1 := 0.90, 2 := 0.92, 3 := 0.95, 4 := 0.98, 5 := 1.00, 6 := 1.00,
        7 := 1.05, 8 := 1.10, 9 := 0.95, 10 := 0.90, 11 := 0.85, 12 := 0.80]

  /** `get_seasonality_factor(d)`: the factor for the month of date `d`. */
  function DayFactor(d: Calendar.Date): (r: real)
    ensures 0.80 <= r <= 1.10
    ensures Calendar.Month(d) == 6 ==> r == 1.0
  {
    Get(DAY_SEASONALITY, Calendar.Month(d), 1.0)
  }

  /** `SEASONALITY_FACTORS.get(month, 1.0)`. */
  function MonthFactor(month: int): (r: real)
    ensures 0.80 <= r <= 1.10
    ensures !(1 <= month <= 12) ==> r == 1.0
  {
    Get(SEASONALITY_FACTORS, month, 1.0)
  }

  /** The factor of a request's start month, or June's without a start date. */
  function RequestFactor(startDate: Option<Calendar.Date>): (s: real)
    ensures 0.80 <= s <= 1.10
    ensures startDate.None? ==> s == 1.0
  {
    MonthFactor(if startDate.Some? then Calendar.Month(startDate.value) else 6)
  }

  /** The two numeric tables agree on every key, months and others alike. */
  lemma TablesAgree(month: int)
    ensures Get(DAY_SEASONALITY, month, 1.0) == MonthFactor(month)
  {
    if 1 <= month <= 12 {
      assert month in DAY_SEASONALITY && month in SEASONALITY_FACTORS;
      assert DAY_SEASONALITY[month] == SEASONALITY_FACTORS[month];
    } else {
      assert month !in DAY_SEASONALITY && month !in SEASONALITY_FACTORS;
    }
  }

  lemma DayFactorIsMonthFactor(d: Calendar.Date)
    ensures DayFactor(d) == MonthFactor(Calendar.Month(d))
  {
    TablesAgree(Calendar.Month(d));
  }

  /** The month-name table defined in `job_impact_scenarios` (never read there). */
  const MARKET_SEASONALITY: map<string, real> :=
    map["Jan" := 0.9, "Feb" := 0.95, "Mar" := 1.0, "Apr" := 1.05, "May" := 1.1, "Jun" := 1.2,
        "Jul" := 1.15, "Aug" := 1.1, "Sep" := 1.0, "Oct" := 1.05, "Nov" := 1.2, "Dec" := 1.3]

  function MarketFactor(name: string): (r: real)
    ensures 0.9 <= r <= 1.3
    ensures name !in MARKET_SEASONALITY ==> r == 1.0
  {
    Get(MARKET_SEASONALITY, name, 1.0)
  }
}
