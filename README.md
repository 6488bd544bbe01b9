# Campaign forecasting API, modelled in Dafny

This project models the arithmetic core of a job-advertising forecaster. The
forecaster is a small HTTP API (`ml/api.py`) and an offline analysis script
(`backend/trading_analysis.py`). Both predict cost per apply start (CPAS),
apply starts and spend pacing for a campaign from one month of history
(June 2025).

The model covers four endpoints and the script:

- **`cpas_for_budget`** (module `CpasForBudget`). The request is first
  normalised: the budget is raised to at least 5000, and the window is the
  inclusive date span or seven days per week of duration from June 1, 2025,
  with at least seven days either way.
  - Budgets below 50000 get a closed-form estimate.
  - Larger budgets go through the per-regime prediction loop, for its
    day-weighted confidence. A pacing curve then spreads the budget over the
    target dates by June's daily spend shares. The CPAS is read off a
    piecewise-linear curve through the budget log's (daily spend, CPAS)
    points, floored at 3.0 and divided by the month's seasonality.
- **`boundaries_for_budget`** (module `Boundaries`). It builds the best and
  worst delivery envelopes from the `duration` cheapest and dearest June days.
- **`job_quality_scores`** (module `JobQuality`). Each spreadsheet row gets a
  0–100 quality score from four yes/partially/no answers.
- **`job_impact_scenarios`** (module `JobImpact`). The request window is
  mapped onto June days. Each day's CPAS and apply starts are scaled by
  seasonality and by quality factors from two regressions. The current and
  perfect-quality averages are compared, and an optimal job count is chosen.
- **The trading-analysis estimate** (module `Trading`). A 30-day average CPAS
  is adjusted for the number of jobs and then for a month's market
  seasonality.

Supporting modules:

| module | what it holds |
|---|---|
| `Numeric` | exact counterparts of `sum`, `int()`, `round()`, `min`, `max` and `np.clip` |
| `Text` | `strip`, `lower`, `startswith` |
| `Sorting` | an insertion sort for `sorted(key=…)` and `nsmallest`/`nlargest`, proved stable: equal keys stay in table order |
| `Calendar` | day ordinals and the Gregorian month and day |
| `Seasonality` | the three seasonality tables |
| `June` | the June daily table |

Modelling conventions:

- Quantities are exact reals.
- `int()` truncates toward zero.
- `round` rounds half to even, on the exact value.
- A NaN statistic is `None`.
- An exception caught by an endpoint's `try` becomes an `Err` value.
- Regression and clustering *outputs* are inputs to the model: the per-regime
  training-day counts, R² values and raw predictions, the two job-quality
  lines, and the job totals.

The endpoints' interface is documented from the caller's side. Where that
documentation and the code differ, the model follows the code:

- `duration` is documented as an integer of at least one week. The code
  accepts any integer and raises the window to seven days, and so does the
  model.
- A missing confidence is documented as defaulting to 0.95. In the code the
  confidence is the day-weighted regime confidence. It falls back to 0.95 when
  no target day is predicted (line 332), and a regime with an R² below 0.92 or
  NaN also contributes 0.95 for each of its days (line 297).
- Degenerate arithmetic is documented as never raising and never returning NaN
  or infinity. In the code, a zero-width segment of the spend curve yields
  +∞, −∞ or NaN. The CPAS floor at line 434 turns −∞ into 3.0, but a +∞ or NaN
  value leaves the response unencodable (`FinalEstimate`).
- The pacing loop reads the raw June shares (ml/api.py:347), not the shares
  normalised at line 190. The cumulative spend therefore reaches the budget
  only when the selected raw shares sum to one
  (`CumulativeSpendReachesBudget` states exactly this).

## Model

| member | source | states |
|---|---|---|
| Seasonality.DayFactor | ml/api.py:80-89 | the factor of a date's month is between 0.80 and 1.10, and 1.0 for June |
| Seasonality.MonthFactor | ml/api.py:92-105 | the factor of a month number is between 0.80 and 1.10, and 1.0 for a key outside 1..12 |
| Seasonality.TablesAgree | ml/api.py:88-105 | the table inside `get_seasonality_factor` and `SEASONALITY_FACTORS` give the same factor for every key |
| Seasonality.DayFactorIsMonthFactor | ml/api.py:80-122 | the per-day factor of the regime loop is the request factor of that date's month |
| Seasonality.MarketFactor | ml/api.py:571-574 | the month-name factor is between 0.9 and 1.3, and 1.0 for a name not in the table |
| Calendar.June2025 | ml/api.py:583 | the thirty days from day ordinal 20240 are June 1 to June 30, 2025, with those days of the month |
| Numeric.Trunc | ml/api.py:449 | `int(x)` is the integer next to `x` toward zero |
| Numeric.RoundHalfEven | ml/api.py:765-766 | `round(x)` is the nearest integer to `x`: within one half of it, `x` itself for an integer, and the even neighbour on a tie |
| Numeric.Round1 | ml/api.py:536 | `round(x, 1)` is a multiple of 0.1 within 0.05 of `x`, an even multiple on a tie |
| Numeric.Round2 | ml/api.py:353-354 | `round(x, 2)` is a multiple of 0.01 within 0.005 of `x`, an even multiple on a tie |
| Numeric.Round4 | ml/api.py:451 | `round(x, 4)` is a multiple of 0.0001 within 0.00005 of `x`, an even multiple on a tie |
| Numeric.Round2Monotone | ml/api.py:353-354 | rounding to cents preserves order |
| Numeric.Clip | ml/api.py:320 | `np.clip` lands in `[lo, hi]`, keeps values inside, and maps values below or above to the nearer bound |
| Numeric.MeanBounds | ml/api.py:632 | the mean of values within bounds is within them |
| Sorting.SortBySpec | ml/api.py:408 | sorting by a key gives a sequence sorted by that key that is a permutation of the input |
| Sorting.SortByStable | ml/api.py:408 | the elements sharing any one key come out of the sort in their input order |
| Text.TrimStartSpec | ml/api.py:517 | `lstrip` removes exactly the leading whitespace and leaves a suffix that does not start with whitespace |
| Text.TrimEndSpec | ml/api.py:517 | `rstrip` removes exactly the trailing whitespace and leaves a prefix that does not end with whitespace |
| Text.StripSpec | ml/api.py:517 | `strip` leaves a slice of the input with only whitespace removed around it, neither starting nor ending with whitespace |
| Text.StripIdempotent | ml/api.py:517 | stripping twice is stripping once |
| Text.LowerSpec | ml/api.py:517 | `lower` keeps the length, maps each character, and leaves no upper-case ASCII letter |
| JobQuality.TieredCredit | ml/api.py:517-521 | the title and formatting answers earn between 0 and 1 point |
| JobQuality.SalaryCredit | ml/api.py:523-525 | the salary answer earns between 0 and 1 point |
| JobQuality.PhoneCredit | ml/api.py:527-529 | the phone answer earns between 0 and 1 point |
| JobQuality.Points | ml/api.py:515-535 | a row earns between 0 and 4 points |
| JobQuality.Score | ml/api.py:536 | a row's score is between 0 and 100 |
| JobQuality.CreditSteps | ml/api.py:515-535 | every answer earns a whole point, a half point or nothing, and only the tiered answers can earn a half |
| JobQuality.ScoreOnGrid | ml/api.py:515-536 | every score is a multiple of 12.5 from 0 to 100 |
| JobQuality.ScoreGridIsRounded | ml/api.py:536 | `round(…, 1)` leaves every multiple of 12.5 unchanged |
| JobQuality.ScoreRow | ml/api.py:514-536 | the `points +=` block followed by the rounding computes exactly the row's score, between 0 and 100 |
| JobQuality.HalfPointOnlyFromPartialAnswers | ml/api.py:515-535 | the points have a half in them exactly when exactly one of the title and formatting answers earned partial credit |
| JobQuality.PhoneAnswerExamples | ml/api.py:527-529 | ` No ` earns the phone point after strip and lower, and `No phone` does not |
| JobQuality.TieredAnswerExample | ml/api.py:517-521 | `Partially - ok` earns half a point on a tiered question |
| JobQuality.SalaryAnswerExample | ml/api.py:523-525 | `Partially` earns nothing on the salary question |
| JobQuality.KeptIsTitledRows | ml/api.py:511-513 | the rows kept are exactly the rows with a job title or an English job title |
| JobQuality.Scores | ml/api.py:605-629 | the job scores are one per kept row, in order, each that row's score and between 0 and 100 |
| JobQuality.CollectQualityScores | ml/api.py:207-231 | the loop yields one score per kept row, in order, each the row's score and between 0 and 100 |
| JobQuality.AverageQualityOrDefault | ml/api.py:233 | the average quality is 75 without scores, else the mean of the scores |
| JobQuality.AverageQuality | ml/api.py:630-632 | the average is absent exactly when there are no jobs, else the mean |
| JobQuality.AverageQualityInRange | ml/api.py:232-233 | an average of scores, or the default, is between 0 and 100 |
| JobQuality.Report | ml/api.py:537-553 | a report carries its row's score |
| JobQuality.JobQualityScores | ml/api.py:502-555 | the endpoint reports exactly the kept rows, in order, each with its score between 0 and 100 |
| June.Cpas | ml/api.py:69 | a day's CPAS is absent exactly when it has no apply starts, and otherwise times its apply starts gives its spend |
| June.Find | ml/api.py:662 | a date lookup finds a row of that date, or there is none |
| Boundaries.CheapestSpec | ml/api.py:465 | `nsmallest` takes `n` (or all) days, together with the rest they are the table, and no day left out is cheaper |
| Boundaries.DearestSpec | ml/api.py:466 | `nlargest` takes `n` (or all) days, together with the rest they are the table, and no day left out is dearer |
| Boundaries.EnvelopeOf | ml/api.py:469-485 | it fails exactly when the selection spends nothing and the budget is negative; otherwise the spend is the lesser of the selection's spend and the budget, the CPAS times the selection's apply starts is its spend (0 without apply starts), and a selection within budget is reported unscaled; above budget the apply starts are `int(AS × (budget / spend))`, never more than `int(AS)` for a non-negative budget and apply starts |
| Boundaries.ScaledDown | ml/api.py:473-475 | scaling non-negative apply starts by a budget below a positive spend gives at most their truncation, and never more than the exact scaled value |
| Boundaries.ScaledApplyStartsNotAbove | ml/api.py:469-481 | on non-negative days and budget the envelope exists, scaling never raises the apply starts, and the reported apply starts at the reported CPAS cost at most the reported spend |
| Boundaries.SpendIsWeighted | ml/api.py:469-471 | when every day's CPAS is in `[lo, hi]`, the selection's spend is between `lo` and `hi` times its apply starts |
| Boundaries.EnvelopeCpasBetween | ml/api.py:469-481 | when every day's CPAS is in `[lo, hi]`, so is the envelope's CPAS |
| Boundaries.BoundariesForBudget | ml/api.py:460-500 | both sides spend at most the budget, a non-negative budget never fails, and the sides are the envelopes of the cheapest and dearest days |
| JobImpact.Range | ml/api.py:583 | `range(lo, hi)` holds `lo` to `hi - 1` in order |
| JobImpact.MappedWindowWithDates | ml/api.py:577-583 | with both dates the mapped days run consecutively from the clamped start day for the span, cut at 30, and are days of June |
| JobImpact.MappedWindowWithoutDates | ml/api.py:585-587 | without both dates the mapped days are June 1 to June min(max(7 × duration, 7), 30) |
| JobImpact.JuneDates | ml/api.py:583 | each mapped day becomes its June 2025 date |
| JobImpact.JuneDateDay | ml/api.py:583 | a mapped date has that day of the month, in June |
| JobImpact.WeekRegimeSpec | ml/api.py:650-660 | regimes 1 to 3 are the first three weeks and regime 4 takes every later day |
| JobImpact.JuneRegimes | ml/api.py:650-660 | every mapped day gets its week regime, in order |
| JobImpact.RelativeTo | ml/api.py:678-685 | a quality factor times a positive average is the prediction, and 1.0 without a positive average |
| JobImpact.QualityFactorsOf | ml/api.py:676-685 | the four factors are the two lines' predictions at the average quality and at 100, relative to the job averages |
| JobImpact.PerDayPredictions | ml/api.py:689-699 | the loop yields, for every mapped day, its scaled apply starts and its scaled CPAS times those |
| JobImpact.AverageCpas | ml/api.py:700-705 | the average CPAS times the total apply starts is the total spend, and 0 without apply starts |
| JobImpact.AverageCpasIsWeighted | ml/api.py:689-705 | the predicted average CPAS is seasonality times the CPAS factor times the apply-start-weighted June CPAS; the apply-start factor cancels |
| JobImpact.Safeguard | ml/api.py:707-709 | a perfect-quality CPAS above the current one becomes 85% of the current one, otherwise it is kept, and it never exceeds a non-negative current CPAS |
| JobImpact.PerJob | ml/api.py:715-716 | the per-job average times the job count is the total, and 0 without jobs |
| JobImpact.JobsCovered | ml/api.py:717-718 | the count is the most whole jobs the amount pays for, or 1 without a positive per-job cost |
| JobImpact.JobsByDuration | ml/api.py:719 | the duration limit is at least 1 and, for a window of at most 30 days, at most the job count (or 1) |
| JobImpact.OptimalJobCountSpec | ml/api.py:717-733 | the count is the least of the three limits, raised to 1; the reason names the first limit it equals, in that order; the note appears exactly when projected apply starts fall short of the goal |
| JobImpact.ImpactConfidence | ml/api.py:735-741 | the confidence is in [0.92, 1.0]: 0.92 without a regression, 1.0 for a NaN R², and the R² itself inside the range |
| JobImpact.LookupDays | ml/api.py:662 | `.loc` succeeds exactly when every mapped date has a row, and returns those rows in order |
| JobImpact.CpasDays | ml/api.py:690-694 | each looked-up day keeps its apply starts; its CPAS is NaN exactly when it has no apply starts, and otherwise times them gives its spend |
| JobImpact.SpendPredictions | ml/api.py:694-698 | a day's predicted spend is NaN exactly when its CPAS is, so all spends are known exactly when all days have a CPAS |
| JobImpact.AverageCpasOrNaN | ml/api.py:700-705 | the average is 0 when the predicted apply starts total at most 0; above that it is NaN exactly when some spend is NaN, and otherwise the spend total over the apply-start total |
| JobImpact.Predictions | ml/api.py:689-709 | a predicted CPAS is NaN exactly when some day lacks a CPAS and one of the two apply-start totals is positive; the apply-start totals are the summed predictions; no apply starts give CPAS 0; after the safeguard the perfect-quality CPAS is at most a non-negative current one |
| JobImpact.PredictedApplyStarts | ml/api.py:692-703 | each apply-start total is the seasonality times its quality factor times the June days' apply starts |
| JobImpact.PredictionsWeighted | ml/api.py:689-705 | when every day has a CPAS and there are apply starts, the current CPAS is seasonality times the CPAS factor times the apply-start-weighted June CPAS |
| JobImpact.PredictScenarios | ml/api.py:689-775 | the response is NaN-free exactly when the predictions are; it then reports the rounded quality, the two CPAS values to the cent, the two apply-start totals to whole numbers, the advice and the rounded confidence, with the perfect-quality CPAS not above a non-negative current one |
| JobImpact.JobImpactScenarios | ml/api.py:560-775 | the errors in the source's order: no mapped date in the June table, then no titled row, then a mapped date missing from the table, then no regression, then a NaN CPAS in the response, which happens exactly when `Predictions` has one; otherwise the report's quality is the rounded mean of the job scores, its CPAS values and apply starts are the rounded predictions, the perfect-quality CPAS is not above a non-negative current one, and it carries the mapped dates, the confidence rounded to four places and the optimal-job advice |
| JobImpact.QualityRoundsInRange | ml/api.py:762 | the rounded overall quality stays in [0, 100] |
| JobImpact.ConfidenceRoundsInRange | ml/api.py:769 | the rounded confidence stays in [0.92, 1.0] |
| Seasonality.RequestFactor | ml/api.py:118-122 | the factor of the start month is in [0.80, 1.10], and June's 1.0 without a start date; the job-impact endpoint repeats this rule at lines 663-668 and uses the same function |
| CpasForBudget.TargetDates | ml/api.py:139 | the target dates are `num_days` consecutive days from the first |
| CpasForBudget.NormaliseSpec | ml/api.py:131-142 | the budget is at least 5000 and kept when it already is; the window has at least seven days and follows the dates or the duration as described above |
| CpasForBudget.ClosedFormSpec | ml/api.py:143-166 | the closed form reports CPAS of at least 3.0, spend equal to the budget, confidence 1.0, no pacing, the window's first and last dates and size, and zero apply starts without a positive goal |
| CpasForBudget.ClosedFormCpasFloor | ml/api.py:148-152 | the closed-form CPAS times the seasonality is at least the budget over 370/3 apply starts a day |
| CpasForBudget.RegimeConfidence | ml/api.py:297 | a regime's confidence is in [0.92, 1.0]: 0.95 for an R² below 0.92 or NaN, the R² up to 1.0, and 1.0 above; the unused first confidence at lines 178-182 is the same clamp |
| CpasForBudget.ConfidenceRulesCompared | ml/api.py:297 | the job-impact clamp agrees with the regime clamp from 0.92 up, gives 0.92 instead of 0.95 below it, and 1.0 instead of 0.95 on NaN |
| CpasForBudget.RegimesByWeek | ml/api.py:302-309 | a date is in at most one regime; June 1–28 fall in their week regime; June 29 and 30 fall in none |
| CpasForBudget.DayPrediction | ml/api.py:319-322 | a prediction is in [0, 50000/3 × 1.10], and the clipped raw value in June |
| CpasForBudget.RegimePredictionsBounded | ml/api.py:300-324 | every regime prediction is in [0, 50000/3 × 1.10], with no more predictions than target dates |
| CpasForBudget.PredictRegime | ml/api.py:299-324 | the inner loop yields the regime's predictions for its target dates, in order, and counts them |
| CpasForBudget.RegimeForecast | ml/api.py:285-326 | the regime loop yields every eligible regime's predictions and its confidence times its day count, and counts the days |
| CpasForBudget.RegimeStep | ml/api.py:288-326 | one more regime appends its predictions and weighted confidence, or nothing when it has fewer than three training days |
| CpasForBudget.ConfidenceWeights | ml/api.py:297-326 | the weighted confidences sum to between 0.92 and 1.0 per predicted day |
| CpasForBudget.AverageConfidenceInRange | ml/api.py:327-332 | the average confidence is in [0.92, 1.0], including the 0.95 default without predictions |
| CpasForBudget.RegimeForecastAsWritten | ml/api.py:314-319 | as written, the loop completes with the corrected loop's results when it raises no error |
| CpasForBudget.RegimeForecastAsWrittenFails | ml/api.py:269-319 | with seven weekday columns in training, the loop as written fails exactly when it reaches a prediction |
| CpasForBudget.DefaultWindowFailsAsWritten | ml/api.py:288-319 | a one-week request at 60000 without dates and with a first regime of seven days fails as written |
| CpasForBudget.RegimePredictionsNonEmpty | ml/api.py:300-313 | a regime predicts a date exactly when one of the target dates is in its week |
| CpasForBudget.AllPredictionsNonEmpty | ml/api.py:288-313 | the loop predicts something exactly when it reaches a target date of an eligible regime |
| CpasForBudget.CappedApplyStarts | ml/api.py:334-336 | the capped apply starts are the lesser of the total and 50000 per 30 days |
| CpasForBudget.ClippedCpas | ml/api.py:337-339 | the clipped CPAS is in [3, 15], equals spend over apply starts inside the range, and is 3 without apply starts |
| CpasForBudget.SelectedShares | ml/api.py:189 | each target date takes the June share of its day of the month, day 31 taking day 30's |
| CpasForBudget.NormalisedShares | ml/api.py:190 | normalising is undefined (the NaN or infinite shares of a zero total) exactly on a zero total; otherwise the shares sum to 1 and each times the old total is the old share |
| CpasForBudget.PrefixSpendIsScaled | ml/api.py:343-349 | the running spend is the budget times the running sum of shares |
| CpasForBudget.BuildPacingTrends | ml/api.py:342-355 | the loop yields one entry per target date: its number, date, rounded day spend and rounded running spend |
| CpasForBudget.SharesNonNegative | ml/api.py:189 | the selected shares are non-negative when the June shares are |
| CpasForBudget.CumulativeSpendNonDecreasing | ml/api.py:343-354 | with non-negative budget and shares the running spend, rounded or not, never decreases |
| CpasForBudget.CumulativeSpendReachesBudget | ml/api.py:343-349 | with shares summing to one, the running spend of the last date is the budget |
| CpasForBudget.PeriodRows | ml/api.py:377-378 | a flight's period holds exactly the June rows dated from its start to before its end |
| CpasForBudget.PeriodPoint | ml/api.py:379-386 | a flight yields a point exactly when its period has rows, a positive length, apply starts and spend; the point's daily spend is the period's spend over seven days per week, and its CPAS times the period's apply starts is the period's spend |
| CpasForBudget.SpendCurve | ml/api.py:374-386 | every curve point has a positive daily spend and CPAS |
| CpasForBudget.BudgetCpasPoints | ml/api.py:374-386 | the budget-log loop yields the curve's points and the spend it leaves in `total_spend` |
| CpasForBudget.SegmentCpas | ml/api.py:412-429 | the segment's value is finite exactly when its ends have different spends |
| CpasForBudget.SegmentCpasOnLine | ml/api.py:414-427 | on a segment of positive width the value is the line through its ends, whichever end is the pivot |
| CpasForBudget.OnLineEnds | ml/api.py:414-427 | the line passes through both ends |
| CpasForBudget.OnLineBetween | ml/api.py:422-429 | between its ends the line stays between their CPAS values |
| CpasForBudget.ChosenSegmentAtPoint | ml/api.py:424-425 | asking for a point's own spend chooses a segment that ends at it, or the first segment for the first point |
| CpasForBudget.CurvePassesThroughPoints | ml/api.py:406-429 | with strictly increasing spends the curve passes through every point |
| CpasForBudget.CurveBetweenBracketingPoints | ml/api.py:422-429 | inside the range the CPAS lies between the bracketing points' CPAS values |
| CpasForBudget.SpendCurveCpas | ml/api.py:406-432 | fewer than two points give the `base_cpas` error; otherwise the chosen segment is the first, the last or the first bracketing one, and the CPAS is read off it |
| CpasForBudget.FinalEstimate | ml/api.py:434-442 | the final stage fails exactly on a NaN or +∞ curve value, floors CPAS at 3.0, and treats −∞ as 3.0 |
| CpasForBudget.FinalFromFloored | ml/api.py:436-442 | a floored CPAS yields a reported CPAS of at least 3.0 |
| CpasForBudget.FinalEstimateConsistent | ml/api.py:436-442 | when the second floor does not bind, the apply starts are the budget over the reported CPAS, truncated |
| CpasForBudget.TotalSpendAsWritten | ml/api.py:337-380 | as written, `total_spend` is the budget when no flight yields a period spend, else the last flight's period spend |
| CpasForBudget.TotalSpendAsWrittenIsPeriodSpend | ml/api.py:448 | two one-week flights in June give the curve two points and a reported spend of 200 for a budget of 60000 |
| CpasForBudget.CpasForBudget | ml/api.py:107-458 | budgets below 50000 give the closed form; a result has CPAS of at least 3.0, budget of at least 5000, at least seven days, spend equal to the budget and the request's seasonality; the large-budget result runs from the first to the last target date, its confidence is the rounded day-weighted regime confidence in [0.92, 1.0], and its pacing entries are the pacing trend of each target date; fewer than two curve points fail |
| CpasForBudget.ConfidenceRounding | ml/api.py:451 | the rounded confidence stays in [0.92, 1.0] |
| Trading.NumberOfJobs | backend/trading_analysis.py:45-50 | an unparsable answer gives 1 job, else the number typed |
| Trading.AdjustmentCapped | backend/trading_analysis.py:55-58 | the adjustment is at most 1.2, is 1.2 from fifty jobs on, and follows the formula below fifty |
| Trading.AdjustmentRangeForJobs | backend/trading_analysis.py:55-58 | for one job or more the adjustment is in (0.8, 1.2] |
| Trading.ZeroJobsIsNeutral | backend/trading_analysis.py:55-58 | zero jobs take the falsy branch and get 1.0 where the formula gives 0.8, above the adjustment for one job |
| Trading.AdjustmentMonotone | backend/trading_analysis.py:55-58 | on either side of zero more jobs never lower the adjustment |
| Trading.AdjustmentZeroAt | backend/trading_analysis.py:55-58 | the adjustment is zero exactly at −100 jobs |
| Trading.EstimatedCpas | backend/trading_analysis.py:60 | the division fails exactly at −100 jobs; otherwise the estimate times the adjustment is the average CPAS |
| Trading.SameTableAsApi | backend/trading_analysis.py:64-77 | the script's month table is the API's |
| Trading.SeasonalityAdjustedCpas | backend/trading_analysis.py:80-82 | an unknown month leaves the estimate unchanged, and every month scales it by a factor from 0.9 to 1.3 |
| Trading.MonthNamesAreCaseSensitive | backend/trading_analysis.py:80-82 | `jan` and `January` earn no seasonality, `Dec` earns 1.3 |

## Left out

- Data loading, CSV parsing, logging, the HTTP plumbing and `to_py` (ml/api.py:777-788). The June table, the budget log, the quality sheet's rows and the job totals are inputs.
- Model fitting: the linear regressions, percentile clipping, `r2_score`, and the k-means clustering with silhouette selection (ml/api.py:168-182, 241-283, 389-395, 634-647, 737-738). Their outputs are inputs. The spend-curve regression at line 392 only acts as the two-point guard, which is modelled.
- The lagged-feature engineering (ml/api.py:192-239), which does not reach the response. The unused first confidence (178-182) is the regime clamp, `CpasForBudget.RegimeConfidence`; its regression is an input.
- `days_to_goal` (ml/api.py:359-372): it reads a library default instead of the request, so its value depends on FastAPI internals. The response field is omitted.
- The median of historical spends (ml/api.py:400-405), which is never used.
- The zero-filled pacing fallback (ml/api.py:356-358), which cannot run because every window has at least seven days.
- The debug block, `avg_as_per_job` and `projected_spend` of `job_impact_scenarios` (ml/api.py:730-760). The optimal-job note is modelled as a flag, not as text.
- The trading script's reading, merging and 30-day averaging (backend/trading_analysis.py:1-41) and its output (83-95). The average CPAS and the parsed answers are inputs.
- Floating point: values are exact reals. Only the interpolation models IEEE infinities and NaN, for a zero-width segment.
- Error message texts: the model uses fixed texts, not Python's exact exception messages.
- JSON encoding: a NaN or infinite CPAS cannot be encoded. The endpoints do that encoding outside their `try`, giving an HTTP 500. The model reports it as an `Err` of the endpoint (`FinalEstimate`, and `NoCpas` in `JobImpact.JobImpactScenarios`). A day without apply starts has a NaN CPAS, which only reaches the response when the predicted apply starts of that average are positive.
- Text.Strip, Text.Lower: whitespace and case are ASCII only. Python's `strip` also removes Unicode spaces such as U+00A0, and `lower` folds non-ASCII letters.
- CpasForBudget.PeriodPoint: `Duration_weeks` is an integer number of weeks. pandas accepts a fractional value, and `.days` then truncates the period length.
- JobQuality.RequisitionId: it takes the fourth cell of the row. When the header repeats a column name, the dictionary has fewer keys than the row has cells, and Python's fourth value can be a later cell.
- CpasForBudget.ClosedFormSpec: does not state the apply starts for a positive goal beyond their computation in `ClosedFormEstimate`.
- CpasForBudget.CpasForBudget: does not restate the large-budget apply starts and CPAS as one formula. `SpendCurveCpas` and `FinalEstimate` state them stage by stage.
- CpasForBudget.RegimeForecastAsWritten: the findings lemmas assume the training matrix has weekday columns for all seven days; `TrainingWidth` takes the count as a parameter, and June's data could in principle lack a weekday.

## Findings

| source | as written | input that shows it | evidently intended | confidence | as-written member | corrected member |
|---|---|---|---|---|---|---|
| ml/api.py:380 | the budget-log loop reuses `total_spend` for each flight's period spend, and line 448 reports it as the campaign's total spend | budget 60000 with start date July 1 and end date July 7, 2025, so that no target date falls in a regime week and no prediction is attempted, and two one-week flights from June 1 and June 8, 2025 with June spends 100 and 200 and 10 apply starts each: `total_spend` is 200 | `total_spend` stays the budget set at line 337 | not executed | CpasForBudget.TotalSpendAsWrittenIsPeriodSpend | CpasForBudget.CpasForBudget |
| ml/api.py:318 | the vector passed to `reg.predict` has 1 + 7 + k entries, but the regression was fitted on the 5 + 7 + k columns of lines 269-279, so scikit-learn raises on the first prediction | budget 60000, duration one week, no dates, regime 1 fitted on seven days: June 1, 2025 is in regime 1's week and the endpoint returns "Calculation failed" | the vector has the training matrix's columns, and the loop predicts every target date of an eligible regime | not executed | CpasForBudget.DefaultWindowFailsAsWritten | CpasForBudget.RegimeForecast |
