/**
 * The arithmetic of `cpas_for_budget`: the request is normalised to a budget of
 * at least 5000 and a window of at least seven target dates; small budgets get a
 * closed-form estimate; larger ones combine per-regime predictions into a
 * confidence, build a pacing curve from June's daily spend shares, and read the
 * CPAS off a piecewise-linear curve through the budget log's (daily spend, CPAS)
 * points, floored at 3.0 and adjusted for seasonality.
 */
module CpasForBudget {
  import opened Common
  import opened Numeric
  import opened Sorting
  import Calendar
  import Seasonality
  import June
  import JobImpact

  const MIN_BUDGET: real := 5000.0
  const MIN_DURATION: int := 7
  const MIN_CPAS: real := 3.0
  const MAX_CPAS: real := 15.0
  const MAX_AS_PER_30D: real := 50000.0
  /** Budgets below this get the closed-form estimate. */
  const CLOSED_FORM_LIMIT: real := 50000.0
  /** Regimes fitted on fewer training days are skipped. */
  const MIN_REGIME_DAYS: int := 3

  datatype Request = Request(budget: real, duration: int, startDate: Option<Calendar.Date>,
                             endDate: Option<Calendar.Date>, asGoal: Option<real>)

  /** `num_days` consecutive dates from `first`. */
  function TargetDates(first: Calendar.Date, numDays: int): (r: seq<Calendar.Date>)
    ensures |r| == MaxInt(numDays, 0)
    ensures forall i :: 0 <= i < |r| ==> r[i] == first + i
  {
    seq(MaxInt(numDays, 0), i requires 0 <= i < MaxInt(numDays, 0) => first + i)
  }

  /** The budget and the target dates after normalisation. */
  datatype Window = Window(budget: real, targetDates: seq<Calendar.Date>)

  function Normalise(req: Request): Window
  {
    var budget := Max(req.budget, MIN_BUDGET);
    if req.startDate.Some? && req.endDate.Some? then
      var span := req.endDate.value - req.startDate.value + 1;
      var numDays := if span < MIN_DURATION then MIN_DURATION else span;
      Window(budget, TargetDates(req.startDate.value, numDays))
    else
      var numDays := MaxInt(req.duration * 7, MIN_DURATION);
      Window(budget, TargetDates(Calendar.JUNE_1_2025, numDays))
  }

  /** The budget is raised to 5000; the window has at least seven days; with both
      dates it is the inclusive span raised to seven days from the start date, else
      seven days per week of duration from June 1, 2025. */
  lemma NormaliseSpec(req: Request)
    ensures var w := Normalise(req);
      w.budget >= MIN_BUDGET && (req.budget >= MIN_BUDGET ==> w.budget == req.budget)
      && |w.targetDates| >= MIN_DURATION
    ensures var w := Normalise(req);
      req.startDate.Some? && req.endDate.Some? ==>
        |w.targetDates| == MaxInt(req.endDate.value - req.startDate.value + 1, MIN_DURATION)
        && forall i :: 0 <= i < |w.targetDates| ==> w.targetDates[i] == req.startDate.value + i
    ensures var w := Normalise(req);
      !(req.startDate.Some? && req.endDate.Some?) ==>
        |w.targetDates| == MaxInt(7 * req.duration, MIN_DURATION)
        && forall i :: 0 <= i < |w.targetDates| ==> w.targetDates[i] == Calendar.JUNE_1_2025 + i
  {
  }

  /** One entry of `pacingTrends`. */
  datatype PacingEntry = PacingEntry(day: int, date: Calendar.Date, dailySpend: real, cumulativeSpend: real)

  /** The `cpas_for_budget` response. */
  datatype Estimate = Estimate(
    startDate: Calendar.Date,
    endDate: Calendar.Date,
    numDays: int,
    budget: real,
    totalSpend: real,
    applyStarts: int,
    cpas: real,
    confidence: real,
    pacing: seq<PacingEntry>,
    seasonality: real)

  /** The goal given, or 1. */
  function GoalOrDefault(asGoal: Option<real>): real
  {
    if asGoal.Some? then asGoal.value else 1.0
  }

  /** The closed-form estimate for budgets below 50000: apply starts are budget over
      goal per day, CPAS is the budget over 370/3 apply starts a day, both adjusted
      for seasonality, and CPAS floored at 3.0. */
  function ClosedFormEstimate(req: Request): Estimate
  {
    var w := Normalise(req);
    NormaliseSpec(req);
    var s := Seasonality.RequestFactor(req.startDate);
    var n := |w.targetDates| as real;
    var goal := GoalOrDefault(req.asGoal);
    // Without a positive goal the apply starts are 0, and 0 * s truncates to 0.
    var applyStarts := if goal > 0.0 then Trunc((w.budget / goal) * n * s) else 0;
    var cpas := if n > 0.0 then w.budget / ((370.0 * n) / 3.0) else 0.0;
    Estimate(w.targetDates[0], w.targetDates[|w.targetDates| - 1], |w.targetDates|, w.budget, w.budget,
             applyStarts, Max(cpas / s, MIN_CPAS), 1.0, [], s)
  }

  lemma ClosedFormSpec(req: Request)
    ensures var e, w := ClosedFormEstimate(req), Normalise(req);
      e.cpas >= MIN_CPAS && e.totalSpend == e.budget == w.budget && e.confidence == 1.0 && e.pacing == []
      && e.numDays == |w.targetDates| >= MIN_DURATION
      && e.startDate == w.targetDates[0] && e.endDate == w.targetDates[|w.targetDates| - 1]
      && e.seasonality == Seasonality.RequestFactor(req.startDate)
    ensures GoalOrDefault(req.asGoal) <= 0.0 ==> ClosedFormEstimate(req).applyStarts == 0
  {
    NormaliseSpec(req);
  }

  /** The CPAS is never below the unadjusted budget per 370/3 apply starts a day, once
      the seasonality is put back. */
  lemma ClosedFormCpasFloor(req: Request)
    ensures var e := ClosedFormEstimate(req);
      e.cpas * e.seasonality >= e.budget / ((370.0 * e.numDays as real) / 3.0)
  {
    NormaliseSpec(req);
    var e := ClosedFormEstimate(req);
    MaxTimes(e.budget / ((370.0 * e.numDays as real) / 3.0), e.seasonality);
  }

  lemma MaxTimes(c: real, s: real)
    requires s > 0.0
    ensures Max(c / s, MIN_CPAS) * s >= c
  {
    var q := c / s;
    assert q * s == c;
    if MIN_CPAS > q {
      assert MIN_CPAS * s >= q * s;
    }
  }

  /** The per-regime confidence: the R² clamped to [0.92, 1.0] when it is at least
      0.92, and 0.95 when it is lower or NaN (`None`). */
  function RegimeConfidence(r2: Option<real>): (c: real)
    ensures 0.92 <= c <= 1.0
    ensures r2.None? || r2.value < 0.92 ==> c == 0.95
    ensures r2.Some? && 0.92 <= r2.value <= 1.0 ==> c == r2.value
    ensures r2.Some? && r2.value > 1.0 ==> c == 1.0
  {
    if r2.None? || r2.value < 0.92 then 0.95 else Min(1.0, Max(0.92, r2.value))
  }

  /** The job-impact clamp agrees with this one on an R² of at least 0.92; below it
      gives 0.92 where this gives 0.95, and on NaN it gives 1.0 where this gives 0.95. */
  lemma ConfidenceRulesCompared(g: JobImpact.JobRegression)
    ensures g.r2.Some? && g.r2.value >= 0.92 ==> JobImpact.ImpactConfidence(Some(g)) == RegimeConfidence(g.r2)
    ensures g.r2.Some? && g.r2.value < 0.92 ==> JobImpact.ImpactConfidence(Some(g)) == 0.92 < RegimeConfidence(g.r2)
    ensures g.r2.None? ==> JobImpact.ImpactConfidence(Some(g)) == 1.0 > RegimeConfidence(g.r2)
  {
    if g.r2.Some? && g.r2.value >= 0.92 {
      if g.r2.value <= 1.0 {
        assert JobImpact.ImpactConfidence(Some(g)) == g.r2.value;
      }
    }
  }

  /** The target dates regimes 1 to 4 predict: the four weeks from June 1, 2025. */
  predicate InRegime(id: int, d: Calendar.Date)
  {
    1 <= id <= 4 && Calendar.JUNE_1_2025 + 7 * (id - 1) <= d < Calendar.JUNE_1_2025 + 7 * id
  }

  /** A date falls in at most one regime, and the regimes agree with the job-impact
      week of June 1–28; June 29 and 30 fall in none, though the week rule gives them 4. */
  lemma RegimesByWeek(id: int, other: int, day: int)
    ensures InRegime(id, JobImpact.JuneDate(day)) && InRegime(other, JobImpact.JuneDate(day)) ==> id == other
    ensures 1 <= day <= 28 ==> InRegime(JobImpact.WeekRegime(day), JobImpact.JuneDate(day))
    ensures 29 <= day <= 30 ==> !InRegime(id, JobImpact.JuneDate(day)) && JobImpact.WeekRegime(day) == 4
  {
  }

  /** What the regime loop takes from its clustering and regressions: how many June
      days each regime holds and its R². */
  datatype RegimeFit = RegimeFit(trainingDays: int, r2: Option<real>)

  /** A raw regression prediction clipped to [0, 50000/3] and scaled by the day's seasonality. */
  function DayPrediction(raw: real, d: Calendar.Date): (p: real)
    ensures 0.0 <= p <= (MAX_AS_PER_30D / 3.0) * 1.10
    ensures Calendar.Month(d) == 6 ==> p == Clip(raw, 0.0, MAX_AS_PER_30D / 3.0)
  {
    var clipped := Clip(raw, 0.0, MAX_AS_PER_30D / 3.0);
    var f := Seasonality.DayFactor(d);
    assert 0.0 <= clipped * f <= (MAX_AS_PER_30D / 3.0) * 1.10 by {
      assert clipped * f <= clipped * 1.10;
    }
    clipped * f
  }

  /** The predictions of regime `id` for the target dates it covers, in date order;
      `raw(id, i)` is its regression's prediction for target date `i`. */
  function RegimePredictions(id: int, dates: seq<Calendar.Date>, raw: (int, int) -> real): seq<real>
  {
    if dates == [] then []
    else
      var n := |dates| - 1;
      RegimePredictions(id, dates[..n], raw)
        + (if InRegime(id, dates[n]) then [DayPrediction(raw(id, n), dates[n])] else [])
  }

  /** The predictions of the first `count` regimes that have enough training days,
      regime by regime; regime `j + 1` is `fits[j]`. */
  function AllPredictions(fits: seq<RegimeFit>, count: nat, dates: seq<Calendar.Date>, raw: (int, int) -> real): seq<real>
    requires count <= |fits|
  {
    if count == 0 then []
    else
      AllPredictions(fits, count - 1, dates, raw)
        + (if fits[count - 1].trainingDays < MIN_REGIME_DAYS then [] else RegimePredictions(count, dates, raw))
  }

  /** `confidence * regime_days` */
  function Weighted(confidence: real, days: int): real
  {
    confidence * days as real
  }

  /** Each of those regimes' confidence times the number of days it predicts. */
  function AllConfidences(fits: seq<RegimeFit>, count: nat, dates: seq<Calendar.Date>, raw: (int, int) -> real): seq<real>
    requires count <= |fits|
  {
    if count == 0 then []
    else
      AllConfidences(fits, count - 1, dates, raw)
        + (if fits[count - 1].trainingDays < MIN_REGIME_DAYS then []
           else [Weighted(RegimeConfidence(fits[count - 1].r2), |RegimePredictions(count, dates, raw)|)])
  }

  /** The confidence products add up to between 0.92 and 1.0 per predicted day. */
  lemma {:induction false} ConfidenceWeights(fits: seq<RegimeFit>, count: nat, dates: seq<Calendar.Date>, raw: (int, int) -> real)
    requires count <= |fits|
    ensures var n := |AllPredictions(fits, count, dates, raw)| as real;
      0.92 * n <= Sum(AllConfidences(fits, count, dates, raw)) <= n
  {
    if count > 0 {
      ConfidenceWeights(fits, count - 1, dates, raw);
      var prev := AllConfidences(fits, count - 1, dates, raw);
      var prevDays := |AllPredictions(fits, count - 1, dates, raw)| as real;
      if fits[count - 1].trainingDays >= MIN_REGIME_DAYS {
        var c := RegimeConfidence(fits[count - 1].r2);
        var regime := RegimePredictions(count, dates, raw);
        var days := |regime|;
        var w := Weighted(c, days);
        assert AllPredictions(fits, count, dates, raw) == AllPredictions(fits, count - 1, dates, raw) + regime;
        assert AllConfidences(fits, count, dates, raw) == prev + [w];
        SumAppend(prev, [w]);
        assert Sum([w]) == w by {
          assert [w][..0] == [];
        }
        ClampedProduct(c, days, w);
        AddWeights(prevDays, Sum(prev), days as real, w);
      } else {
        assert AllConfidences(fits, count, dates, raw) == prev;
        assert AllPredictions(fits, count, dates, raw) == AllPredictions(fits, count - 1, dates, raw);
      }
    }
  }

  lemma ClampedProduct(c: real, days: int, p: real)
    requires 0.92 <= c <= 1.0 && days >= 0 && p == Weighted(c, days)
    ensures 0.92 * days as real <= p <= days as real
  {
  }

  lemma AddWeights(a: real, s: real, b: real, t: real)
    requires 0.92 * a <= s <= a && 0.92 * b <= t <= b
    ensures 0.92 * (a + b) <= s + t <= a + b
  {
  }

  /** Every prediction is in [0, 50000/3 * 1.10]. */
  lemma {:induction false} RegimePredictionsBounded(id: int, dates: seq<Calendar.Date>, raw: (int, int) -> real)
    ensures forall i :: 0 <= i < |RegimePredictions(id, dates, raw)| ==>
      0.0 <= RegimePredictions(id, dates, raw)[i] <= (MAX_AS_PER_30D / 3.0) * 1.10
    ensures |RegimePredictions(id, dates, raw)| <= |dates|
  {
    if dates != [] {
      RegimePredictionsBounded(id, dates[..|dates| - 1], raw);
    }
  }

  /** The inner loop of the regime loop: the clipped, seasonally scaled prediction of
      regime `id` for each target date in its week. */
  method PredictRegime(id: int, dates: seq<Calendar.Date>, raw: (int, int) -> real)
    returns (predictions: seq<real>, regimeDays: int)
    ensures predictions == RegimePredictions(id, dates, raw)
    ensures regimeDays == |predictions|
  {
    predictions, regimeDays := [], 0;
    var i := 0;
    while i < |dates|
      invariant 0 <= i <= |dates|
      invariant predictions == RegimePredictions(id, dates[..i], raw)
      invariant regimeDays == |predictions|
    {
      assert dates[..i + 1][..i] == dates[..i];
      if InRegime(id, dates[i]) {
        var pred := Clip(raw(id, i), 0.0, MAX_AS_PER_30D / 3.0);
        var predSeasonal := pred * Seasonality.DayFactor(dates[i]);
        assert predSeasonal == DayPrediction(raw(id, i), dates[i]);
        predictions := predictions + [predSeasonal];
        regimeDays := regimeDays + 1;
      }
      i := i + 1;
    }
    assert dates[..i] == dates;
  }

  /** The regime loop: for each regime with at least three training days, predict
      every target date in its week and record its confidence times its day count. */
  method RegimeForecast(fits: seq<RegimeFit>, dates: seq<Calendar.Date>, raw: (int, int) -> real)
    returns (predictions: seq<real>, confidences: seq<real>, totalDays: int)
    ensures predictions == AllPredictions(fits, |fits|, dates, raw)
    ensures confidences == AllConfidences(fits, |fits|, dates, raw)
    ensures totalDays == |predictions|
  {
    predictions, confidences, totalDays := [], [], 0;
    var j := 0;
    while j < |fits|
      invariant 0 <= j <= |fits|
      invariant predictions == AllPredictions(fits, j, dates, raw)
      invariant confidences == AllConfidences(fits, j, dates, raw)
      invariant totalDays == |predictions|
    {
      if fits[j].trainingDays >= MIN_REGIME_DAYS {
        var confidence := RegimeConfidence(fits[j].r2);
        var regime, regimeDays := PredictRegime(j + 1, dates, raw);
        var weight := Weighted(confidence, regimeDays);
        RegimeStep(fits, j, dates, raw, predictions, confidences, regime, weight);
        predictions := predictions + regime;
        confidences := confidences + [weight];
        totalDays := totalDays + regimeDays;
      } else {
        RegimeStep(fits, j, dates, raw, predictions, confidences, [], 0.0);
      }
      j := j + 1;
    }
  }

  /** Taking one more regime appends its predictions and its weighted confidence, or
      nothing when it has too few training days. */
  lemma RegimeStep(fits: seq<RegimeFit>, j: nat, dates: seq<Calendar.Date>, raw: (int, int) -> real,
                   predictions: seq<real>, confidences: seq<real>, regime: seq<real>, weight: real)
    requires j < |fits|
    requires predictions == AllPredictions(fits, j, dates, raw)
    requires confidences == AllConfidences(fits, j, dates, raw)
    requires fits[j].trainingDays >= MIN_REGIME_DAYS ==>
      regime == RegimePredictions(j + 1, dates, raw) && weight == Weighted(RegimeConfidence(fits[j].r2), |regime|)
    ensures fits[j].trainingDays < MIN_REGIME_DAYS ==>
      predictions == AllPredictions(fits, j + 1, dates, raw) && confidences == AllConfidences(fits, j + 1, dates, raw)
    ensures fits[j].trainingDays >= MIN_REGIME_DAYS ==>
      predictions + regime == AllPredictions(fits, j + 1, dates, raw)
      && confidences + [weight] == AllConfidences(fits, j + 1, dates, raw)
  {
  }

  /** `sum(confidences) / total_days`, or 0.95 when no day was predicted. */
  function AverageConfidence(confidences: seq<real>, totalDays: int): real
  {
    if totalDays > 0 then Sum(confidences) / totalDays as real else 0.95
  }

  /** The reported confidence is a day-weighted average of regime confidences, so it
      stays in [0.92, 1.0]. */
  lemma AverageConfidenceInRange(fits: seq<RegimeFit>, dates: seq<Calendar.Date>, raw: (int, int) -> real)
    ensures var n := |AllPredictions(fits, |fits|, dates, raw)|;
      0.92 <= AverageConfidence(AllConfidences(fits, |fits|, dates, raw), n) <= 1.0
  {
    ConfidenceWeights(fits, |fits|, dates, raw);
    var n := |AllPredictions(fits, |fits|, dates, raw)|;
    if n > 0 {
      var s := Sum(AllConfidences(fits, |fits|, dates, raw));
      MeanOfWeights(s, n as real);
    }
  }

  lemma MeanOfWeights(s: real, n: real)
    requires n > 0.0 && 0.92 * n <= s <= n
    ensures 0.92 <= s / n <= 1.0
  {
    DivLower(s, n, 0.92);
    var m := s / n;
    assert s == m * n;
  }

  /** Columns of the regime regression's training matrix: spend, jobs live, average
      quality, the previous day's spend and applies, one per weekday in June's data,
      and one per regime. */
  function TrainingWidth(weekdays: int, regimes: int): int
  {
    5 + weekdays + regimes
  }

  /** Entries of the vector built for a target date: its budget share, seven weekday
      indicators and one indicator per regime. */
  function QueryWidth(regimes: int): int
  {
    1 + 7 + regimes
  }

  /** Some regime among the first `count` with enough training days covers a target date. */
  predicate ReachesPredict(fits: seq<RegimeFit>, count: nat, dates: seq<Calendar.Date>)
    requires count <= |fits|
  {
    exists j, i :: 0 <= j < count && 0 <= i < |dates| && fits[j].trainingDays >= MIN_REGIME_DAYS
      && InRegime(j + 1, dates[i])
  }

  /** The regime loop as written: the first call of `reg.predict` raises when the vector's
      width differs from the training matrix's; without such a call it completes. */
  function RegimeForecastAsWritten(fits: seq<RegimeFit>, dates: seq<Calendar.Date>, raw: (int, int) -> real,
                                   weekdays: int): (r: Result<(seq<real>, seq<real>), string>)
    ensures r.Ok? ==> r.value == (AllPredictions(fits, |fits|, dates, raw), AllConfidences(fits, |fits|, dates, raw))
  {
    if ReachesPredict(fits, |fits|, dates) && QueryWidth(|fits|) != TrainingWidth(weekdays, |fits|) then
      Err("X has fewer features than the regression was fitted with")
    else Ok((AllPredictions(fits, |fits|, dates, raw), AllConfidences(fits, |fits|, dates, raw)))
  }

  /** With every weekday in June's data, the loop as written fails exactly when the
      corrected loop predicts at least one target date. */
  lemma RegimeForecastAsWrittenFails(fits: seq<RegimeFit>, dates: seq<Calendar.Date>, raw: (int, int) -> real)
    ensures RegimeForecastAsWritten(fits, dates, raw, 7).Err? <==> |AllPredictions(fits, |fits|, dates, raw)| > 0
  {
    AllPredictionsNonEmpty(fits, |fits|, dates, raw);
  }

  /** A one-week request without dates at a budget of 60000, with a first regime of
      seven training days, fails: June 1, 2025 is in that regime's week. */
  lemma DefaultWindowFailsAsWritten(raw: (int, int) -> real)
    ensures var req := Request(60000.0, 1, None, None, None);
      var fits := [RegimeFit(7, Some(0.95))];
      Normalise(req).budget >= CLOSED_FORM_LIMIT
      && RegimeForecastAsWritten(fits, Normalise(req).targetDates, raw, 7).Err?
  {
    var req := Request(60000.0, 1, None, None, None);
    var fits := [RegimeFit(7, Some(0.95))];
    var dates := Normalise(req).targetDates;
    NormaliseSpec(req);
    assert dates[0] == Calendar.JUNE_1_2025;
    assert fits[0].trainingDays >= MIN_REGIME_DAYS && InRegime(0 + 1, dates[0]);
    assert ReachesPredict(fits, |fits|, dates);
  }

  /** A regime predicts some target date exactly when one falls in its week. */
  lemma {:induction false} RegimePredictionsNonEmpty(id: int, dates: seq<Calendar.Date>, raw: (int, int) -> real)
    ensures |RegimePredictions(id, dates, raw)| > 0 <==> exists i :: 0 <= i < |dates| && InRegime(id, dates[i])
  {
    if dates != [] {
      var n := |dates| - 1;
      var init := dates[..n];
      RegimePredictionsNonEmpty(id, init, raw);
      assert forall i :: 0 <= i < n ==> init[i] == dates[i];
      if exists i :: 0 <= i < |dates| && InRegime(id, dates[i]) {
        var i :| 0 <= i < |dates| && InRegime(id, dates[i]);
        if i < n {
          assert InRegime(id, init[i]);
        }
      }
    }
  }

  /** The first `count` regimes predict something exactly when the loop reaches `predict`. */
  lemma {:induction false} AllPredictionsNonEmpty(fits: seq<RegimeFit>, count: nat, dates: seq<Calendar.Date>,
                                                  raw: (int, int) -> real)
    requires count <= |fits|
    ensures |AllPredictions(fits, count, dates, raw)| > 0 <==> ReachesPredict(fits, count, dates)
  {
    if count > 0 {
      AllPredictionsNonEmpty(fits, count - 1, dates, raw);
      RegimePredictionsNonEmpty(count, dates, raw);
      var last := count - 1;
      if ReachesPredict(fits, count, dates) && !ReachesPredict(fits, last, dates) {
        var j, i :| 0 <= j < count && 0 <= i < |dates| && fits[j].trainingDays >= MIN_REGIME_DAYS
          && InRegime(j + 1, dates[i]);
        assert j == last;
      }
    }
  }

  /** `min(total, max_as_per_30d * (len(target_dates) / 30))` */
  function CappedApplyStarts(total: real, numDays: int): (r: real)
    ensures r <= total && r <= MAX_AS_PER_30D * (numDays as real / 30.0)
    ensures r == total || r == MAX_AS_PER_30D * (numDays as real / 30.0)
  {
    Min(total, MAX_AS_PER_30D * (numDays as real / 30.0))
  }

  /** `np.clip(spend / apply_starts if apply_starts > 0 else 0, 3.0, 15.0)` */
  function ClippedCpas(spend: real, applyStarts: real): (c: real)
    ensures MIN_CPAS <= c <= MAX_CPAS
    ensures applyStarts > 0.0 && MIN_CPAS <= spend / applyStarts <= MAX_CPAS ==> c == spend / applyStarts
    ensures applyStarts <= 0.0 ==> c == MIN_CPAS
  {
    Clip(if applyStarts > 0.0 then spend / applyStarts else 0.0, MIN_CPAS, MAX_CPAS)
  }

  /** A date's June pacing share: `pacing_map.get(min(day, 30), 1/30)`. */
  function PacingShare(pacingMap: map<int, real>, d: Calendar.Date): real
  {
    Get(pacingMap, MinInt(Calendar.Day(d), 30), 1.0 / 30.0)
  }

  function SelectedShares(pacingMap: map<int, real>, dates: seq<Calendar.Date>): (r: seq<real>)
    ensures |r| == |dates|
    ensures forall i :: 0 <= i < |dates| ==> r[i] == PacingShare(pacingMap, dates[i])
  {
    seq(|dates|, i requires 0 <= i < |dates| => PacingShare(pacingMap, dates[i]))
  }

  /** `shares / shares.sum()`; with a zero sum numpy yields NaN shares, here `None`. */
  function NormalisedShares(shares: seq<real>): (r: Option<seq<real>>)
    ensures r.None? <==> Sum(shares) == 0.0
    ensures r.Some? ==> (|r.value| == |shares| && Sum(r.value) == 1.0
      && forall i :: 0 <= i < |shares| ==> r.value[i] * Sum(shares) == shares[i])
  {
    var total := Sum(shares);
    if total == 0.0 then None
    else
      var normalised := seq(|shares|, i requires 0 <= i < |shares| => shares[i] / total);
      SumDivide(shares, normalised, total);
      assert total / total == 1.0;
      Some(normalised)
  }

  /** `remaining_budget * share`, the spend of one target date. */
  function DaySpend(budget: real, share: real): real
  {
    budget * share
  }

  /** The spend of the first `i` target dates: the sum of budget times share. */
  function PrefixSpend(budget: real, shares: seq<real>, i: nat): real
    requires i <= |shares|
  {
    if i == 0 then 0.0 else PrefixSpend(budget, shares, i - 1) + DaySpend(budget, shares[i - 1])
  }

  /** The spend up to and including target date `i`. */
  function CumulativeSpend(budget: real, shares: seq<real>, i: nat): real
    requires i < |shares|
  {
    PrefixSpend(budget, shares, i + 1)
  }

  /** It is the budget times the prefix sum of the shares. */
  lemma {:induction false} PrefixSpendIsScaled(budget: real, shares: seq<real>, i: nat)
    requires i <= |shares|
    ensures PrefixSpend(budget, shares, i) == budget * Sum(shares[..i])
  {
    if i > 0 {
      PrefixSpendIsScaled(budget, shares, i - 1);
      assert shares[..i][..i - 1] == shares[..i - 1];
      Distribute(budget, Sum(shares[..i - 1]), shares[i - 1]);
    }
  }

  /** The entry of target date `i`: numbered from 1, with the day's spend and the
      running spend, each rounded to cents only as reported. */
  function PacingTrend(budget: real, shares: seq<real>, dates: seq<Calendar.Date>, i: nat): PacingEntry
    requires i < |shares| == |dates|
  {
    PacingEntry(i + 1, dates[i], Round2(DaySpend(budget, shares[i])), Round2(CumulativeSpend(budget, shares, i)))
  }

  /** The pacing loop: one entry per target date, with the June share of its day of
      the month (day 31 takes day 30's). */
  method BuildPacingTrends(budget: real, pacingMap: map<int, real>, dates: seq<Calendar.Date>)
    returns (trends: seq<PacingEntry>)
    ensures |trends| == |dates|
    ensures forall i :: 0 <= i < |dates| ==> trends[i] == PacingTrend(budget, SelectedShares(pacingMap, dates), dates, i)
  {
    ghost var shares := SelectedShares(pacingMap, dates);
    trends := [];
    var cumulative := 0.0;
    var i := 0;
    while i < |dates|
      invariant 0 <= i <= |dates|
      invariant |trends| == i
      invariant cumulative == PrefixSpend(budget, shares, i)
      invariant forall k :: 0 <= k < i ==> trends[k] == PacingTrend(budget, shares, dates, k)
    {
      var share := PacingShare(pacingMap, dates[i]);
      assert share == shares[i];
      var daySpend := DaySpend(budget, share);
      cumulative := cumulative + daySpend;
      trends := trends + [PacingEntry(i + 1, dates[i], Round2(daySpend), Round2(cumulative))];
      i := i + 1;
    }
  }

  lemma Distribute(b: real, s: real, x: real)
    ensures b * (s + x) == b * s + b * x
  {
  }

  /** The June shares are non-negative when the pacing table's are. */
  lemma SharesNonNegative(pacingMap: map<int, real>, dates: seq<Calendar.Date>)
    requires forall k :: k in pacingMap ==> pacingMap[k] >= 0.0
    ensures forall i :: 0 <= i < |dates| ==> SelectedShares(pacingMap, dates)[i] >= 0.0
  {
  }

  lemma PrefixSumMonotone(shares: seq<real>, i: nat, j: nat)
    requires forall k :: 0 <= k < |shares| ==> shares[k] >= 0.0
    requires i <= j <= |shares|
    ensures Sum(shares[..i]) <= Sum(shares[..j])
  {
    var upper := shares[i..j];
    assert shares[..j] == shares[..i] + upper;
    SumAppend(shares[..i], upper);
    assert forall k :: 0 <= k < |upper| ==> upper[k] == shares[i + k];
    SumNonNegative(upper);
  }

  /** With a non-negative budget and non-negative shares, the unrounded running spend
      never decreases, and neither does its rounding. */
  lemma CumulativeSpendNonDecreasing(budget: real, shares: seq<real>, i: nat, j: nat)
    requires budget >= 0.0
    requires forall k :: 0 <= k < |shares| ==> shares[k] >= 0.0
    requires i <= j < |shares|
    ensures CumulativeSpend(budget, shares, i) <= CumulativeSpend(budget, shares, j)
    ensures Round2(CumulativeSpend(budget, shares, i)) <= Round2(CumulativeSpend(budget, shares, j))
  {
    PrefixSumMonotone(shares, i + 1, j + 1);
    PrefixSpendIsScaled(budget, shares, i + 1);
    PrefixSpendIsScaled(budget, shares, j + 1);
    ScaleMonotone(budget, Sum(shares[..i + 1]), Sum(shares[..j + 1]));
    var lower, upper := CumulativeSpend(budget, shares, i), CumulativeSpend(budget, shares, j);
    assert lower == budget * Sum(shares[..i + 1]);
    assert upper == budget * Sum(shares[..j + 1]);
    Round2Monotone(lower, upper);
  }

  /** With normalised shares the spend of the last target date is the budget. */
  lemma CumulativeSpendReachesBudget(budget: real, shares: seq<real>)
    requires shares != [] && Sum(shares) == 1.0
    ensures CumulativeSpend(budget, shares, |shares| - 1) == budget
  {
    assert shares[..|shares|] == shares;
    PrefixSpendIsScaled(budget, shares, |shares|);
  }

  lemma ScaleMonotone(b: real, s: real, t: real)
    requires b >= 0.0 && s <= t
    ensures b * s <= b * t
  {
    Distribute(b, s, t - s);
  }

  /** A row of the budget log: a flight's start date and its length in weeks. */
  datatype BudgetLogRow = BudgetLogRow(date: Calendar.Date, durationWeeks: int)

  function PeriodEnd(row: BudgetLogRow): Calendar.Date
  {
    row.date + 7 * row.durationWeeks
  }

  /** The June rows dated in `[lo, hi)`, in table order. */
  function PeriodRows(daily: seq<June.DayTotals>, lo: Calendar.Date, hi: Calendar.Date): (r: seq<June.DayTotals>)
    ensures forall k :: 0 <= k < |r| ==> lo <= r[k].date < hi
    ensures forall x :: x in r <==> x in daily && lo <= x.date < hi
  {
    if daily == [] then []
    else
      var n := |daily| - 1;
      assert daily == daily[..n] + [daily[n]];
      PeriodRows(daily[..n], lo, hi) + (if lo <= daily[n].date < hi then [daily[n]] else [])
  }

  function PeriodSpends(rows: seq<June.DayTotals>): seq<real>
  {
    seq(|rows|, i requires 0 <= i < |rows| => rows[i].spend)
  }

  function PeriodApplyStarts(rows: seq<June.DayTotals>): seq<real>
  {
    seq(|rows|, i requires 0 <= i < |rows| => rows[i].applyStarts)
  }

  /** A point of the spend curve: a flight's spend per day and its CPAS. */
  datatype SpendPoint = SpendPoint(dailySpend: real, cpas: real)

  /** The point a budget-log row contributes: its period's spend per calendar day of
      the flight and its CPAS, when the period has rows and both are positive. A
      period without apply starts has a NaN CPAS and no point. */
  function PeriodPoint(row: BudgetLogRow, daily: seq<June.DayTotals>): (p: Option<SpendPoint>)
    ensures p.Some? ==> p.value.dailySpend > 0.0 && p.value.cpas > 0.0
    ensures var period := PeriodRows(daily, row.date, PeriodEnd(row));
      p.Some? <==>
        (period != [] && row.durationWeeks > 0
         && Sum(PeriodApplyStarts(period)) > 0.0 && Sum(PeriodSpends(period)) > 0.0)
    ensures var period := PeriodRows(daily, row.date, PeriodEnd(row));
      p.Some? ==>
        (p.value.dailySpend == Sum(PeriodSpends(period)) / (7 * row.durationWeeks) as real
         && p.value.cpas * Sum(PeriodApplyStarts(period)) == Sum(PeriodSpends(period)))
  {
    var period := PeriodRows(daily, row.date, PeriodEnd(row));
    if period == [] then None
    else PointOf(Sum(PeriodSpends(period)), Sum(PeriodApplyStarts(period)), PeriodEnd(row) - row.date)
  }

  /** The point of a period with the given spend, apply starts and length in days:
      its spend per day and its CPAS, when there is one. */
  function PointOf(spend: real, applyStarts: real, days: int): (p: Option<SpendPoint>)
    ensures p.Some? <==> days > 0 && applyStarts > 0.0 && spend > 0.0
    ensures p.Some? ==>
      (p.value.dailySpend > 0.0 && p.value.cpas > 0.0
       && p.value.dailySpend == spend / days as real && p.value.cpas * applyStarts == spend)
  {
    var dailySpend := if days > 0 then spend / days as real else 0.0;
    QuotientSign(spend, days as real);
    QuotientSign(spend, applyStarts);
    if applyStarts > 0.0 && dailySpend > 0.0 && spend / applyStarts > 0.0 then
      Some(SpendPoint(dailySpend, spend / applyStarts))
    else None
  }

  lemma QuotientSign(a: real, b: real)
    ensures b > 0.0 ==> (a / b > 0.0 <==> a > 0.0)
    ensures b > 0.0 ==> (a / b) * b == a
  {
  }

  /** `budget_cpas_points`: the points of the rows of the log, in log order. */
  function SpendCurve(log: seq<BudgetLogRow>, daily: seq<June.DayTotals>): (r: seq<SpendPoint>)
    ensures forall k :: 0 <= k < |r| ==> r[k].dailySpend > 0.0 && r[k].cpas > 0.0
  {
    if log == [] then []
    else
      var n := |log| - 1;
      SpendCurve(log[..n], daily) + PointList(PeriodPoint(log[n], daily))
  }

  /** The value `total_spend` holds after the log loop, which reuses the name for a
      period's spend: the last non-empty period's spend, if any period had rows. */
  function LastPeriodSpend(log: seq<BudgetLogRow>, daily: seq<June.DayTotals>): Option<real>
  {
    if log == [] then None
    else
      var n := |log| - 1;
      var period := PeriodRows(daily, log[n].date, PeriodEnd(log[n]));
      if period != [] then Some(Sum(PeriodSpends(period))) else LastPeriodSpend(log[..n], daily)
  }

  /** The budget-log loop. */
  method BudgetCpasPoints(log: seq<BudgetLogRow>, daily: seq<June.DayTotals>)
    returns (points: seq<SpendPoint>, lastSpend: Option<real>)
    ensures points == SpendCurve(log, daily)
    ensures lastSpend == LastPeriodSpend(log, daily)
  {
    points, lastSpend := [], None;
    var n := 0;
    while n < |log|
      invariant 0 <= n <= |log|
      invariant points == SpendCurve(log[..n], daily)
      invariant lastSpend == LastPeriodSpend(log[..n], daily)
    {
      CurveStep(log, daily, n);
      var row := log[n];
      var period := PeriodRows(daily, row.date, PeriodEnd(row));
      ghost var before := points;
      if period != [] {
        var totalSpend := Sum(PeriodSpends(period));
        var totalApplies := Sum(PeriodApplyStarts(period));
        var days := PeriodEnd(row) - row.date;
        var dailySpend := if days > 0 then totalSpend / days as real else 0.0;
        assert PeriodPoint(row, daily) == PointOf(totalSpend, totalApplies, days);
        if totalApplies > 0.0 {
          var cpas := totalSpend / totalApplies;
          if dailySpend > 0.0 && cpas > 0.0 {
            points := points + [SpendPoint(dailySpend, cpas)];
          }
        }
        lastSpend := Some(totalSpend);
      }
      assert points == before + PointList(PeriodPoint(row, daily));
      n := n + 1;
    }
    assert log[..n] == log;
  }

  /** The curve's contribution of one flight: its point, if it has one. */
  function PointList(p: Option<SpendPoint>): seq<SpendPoint>
  {
    match p
    case None => []
    case Some(q) => [q]
  }

  /** One more flight of the log appends its point to the curve and, when its period
      has rows, makes its spend the last period spend. */
  lemma CurveStep(log: seq<BudgetLogRow>, daily: seq<June.DayTotals>, n: nat)
    requires n < |log|
    ensures SpendCurve(log[..n + 1], daily) == SpendCurve(log[..n], daily) + PointList(PeriodPoint(log[n], daily))
    ensures var period := PeriodRows(daily, log[n].date, PeriodEnd(log[n]));
      LastPeriodSpend(log[..n + 1], daily)
        == if period != [] then Some(Sum(PeriodSpends(period))) else LastPeriodSpend(log[..n], daily)
  {
    assert log[..n + 1][..n] == log[..n];
  }

  function SpendKey(p: SpendPoint): real { p.dailySpend }

  function CurveSpends(points: seq<SpendPoint>): (r: seq<real>)
    ensures |r| == |points|
    ensures forall i :: 0 <= i < |points| ==> r[i] == points[i].dailySpend
  {
    seq(|points|, i requires 0 <= i < |points| => points[i].dailySpend)
  }

  /** Whether the requested spend is above the curve's range, so the last
      segment extrapolates from its upper end. */
  predicate AboveRange(s: seq<real>, x: real)
  {
    2 <= |s| && !(x <= s[0]) && x >= s[|s| - 1]
  }

  /** The segment the interpolation uses, for sorted spends `s` and requested spend
      `x`: the first one up to the smallest spend, the last one from the largest,
      and otherwise the first segment whose ends bracket `x`. */
  predicate ChosenSegment(s: seq<real>, x: real, segment: int)
  {
    2 <= |s| && 1 <= segment < |s|
    && (x <= s[0] ==> segment == 1)
    && (AboveRange(s, x) ==> segment == |s| - 1)
    && (!(x <= s[0]) && !(x >= s[|s| - 1]) ==>
          s[segment - 1] <= x <= s[segment]
          && forall j :: 1 <= j < segment ==> !(s[j - 1] <= x <= s[j]))
  }

  /** The line through two curve points, read at `x`. */
  function OnLine(p: SpendPoint, q: SpendPoint, x: real): real
    requires q.dailySpend != p.dailySpend
  {
    p.cpas + (q.cpas - p.cpas) / (q.dailySpend - p.dailySpend) * (x - p.dailySpend)
  }

  /** A float value: a number, an infinity or NaN. */
  datatype Extended = Finite(value: real) | PositiveInfinity | NegativeInfinity | NotANumber

  /** `pivot.cpas + slope * (x - pivot.dailySpend)` with the slope of the segment from
      `lo` to `hi`, as numpy computes it: on a segment of zero width a nonzero rise
      makes the slope infinite and a zero rise makes it NaN, and an infinite slope
      times zero is NaN. */
  function SegmentCpas(lo: SpendPoint, hi: SpendPoint, pivot: SpendPoint, x: real): (r: Extended)
    ensures hi.dailySpend != lo.dailySpend <==> r.Finite?
  {
    var rise := hi.cpas - lo.cpas;
    var run := hi.dailySpend - lo.dailySpend;
    if run != 0.0 then Finite(LineThrough(pivot, rise / run, x))
    else if rise == 0.0 || x == pivot.dailySpend then NotANumber
    else if (rise > 0.0) == (x > pivot.dailySpend) then PositiveInfinity
    else NegativeInfinity
  }

  /** `pivot.cpas + slope * (x - pivot.dailySpend)` */
  function LineThrough(pivot: SpendPoint, slope: real, x: real): real
  {
    pivot.cpas + slope * (x - pivot.dailySpend)
  }

  /** On a segment of positive width the value is the line's, whichever end is the pivot. */
  lemma SegmentCpasOnLine(lo: SpendPoint, hi: SpendPoint, x: real)
    requires hi.dailySpend != lo.dailySpend
    ensures SegmentCpas(lo, hi, lo, x) == Finite(OnLine(lo, hi, x))
    ensures SegmentCpas(lo, hi, hi, x) == Finite(OnLine(lo, hi, x))
  {
    PivotAgree(lo.cpas, lo.dailySpend, hi.cpas, hi.dailySpend, x);
  }

  lemma PivotAgree(pc: real, ps: real, qc: real, qs: real, x: real)
    requires qs != ps
    ensures qc + (qc - pc) / (qs - ps) * (x - qs) == pc + (qc - pc) / (qs - ps) * (x - ps)
  {
    var slope := (qc - pc) / (qs - ps);
    assert slope * (qs - ps) == qc - pc;
    assert slope * (x - qs) == slope * (x - ps) - slope * (qs - ps);
  }

  /** The line passes through both its points. */
  lemma OnLineEnds(p: SpendPoint, q: SpendPoint)
    requires q.dailySpend != p.dailySpend
    ensures OnLine(p, q, p.dailySpend) == p.cpas
    ensures OnLine(p, q, q.dailySpend) == q.cpas
  {
    var d := q.dailySpend - p.dailySpend;
    var slope := (q.cpas - p.cpas) / d;
    assert slope * d == q.cpas - p.cpas;
  }

  /** Between its points the line stays between their CPAS values. */
  lemma OnLineBetween(p: SpendPoint, q: SpendPoint, x: real)
    requires p.dailySpend < q.dailySpend
    requires p.dailySpend <= x <= q.dailySpend
    ensures Min(p.cpas, q.cpas) <= OnLine(p, q, x) <= Max(p.cpas, q.cpas)
  {
    var d := q.dailySpend - p.dailySpend;
    var t := (x - p.dailySpend) / d;
    FractionAtMostOne(x - p.dailySpend, d, t);
    var slope := (q.cpas - p.cpas) / d;
    assert slope * (x - p.dailySpend) == (q.cpas - p.cpas) * t;
    InterpolationWeight(p.cpas, q.cpas, t);
  }

  lemma FractionAtMostOne(a: real, d: real, t: real)
    requires 0.0 <= a <= d && d > 0.0 && t == a / d
    ensures 0.0 <= t <= 1.0
  {
    assert t * d == a;
  }

  lemma InterpolationWeight(a: real, b: real, t: real)
    requires 0.0 <= t <= 1.0
    ensures Min(a, b) <= a + (b - a) * t <= Max(a, b)
  {
    var d := b - a;
    var w := d * t;
    if a <= b {
      ProductBetween(d, t, w);
    } else {
      ProductBetween(-d, t, -w);
    }
  }

  lemma ProductBetween(d: real, t: real, p: real)
    requires d >= 0.0 && 0.0 <= t <= 1.0 && p == d * t
    ensures 0.0 <= p <= d
  {
    assert d * t <= d * 1.0;
  }

  predicate StrictlyIncreasing(s: seq<real>)
  {
    forall i, j :: 0 <= i < j < |s| ==> s[i] < s[j]
  }

  /** With strictly increasing spends, asking for a point's own spend chooses a
      segment that ends at that point (or starts at it, for the first point). */
  lemma ChosenSegmentAtPoint(s: seq<real>, k: int, segment: int)
    requires StrictlyIncreasing(s)
    requires 0 <= k < |s|
    requires ChosenSegment(s, s[k], segment)
    ensures (k == 0 && segment == 1) || segment == k
  {
    if 0 < k < |s| - 1 {
      assert !(s[k] <= s[0]) && !(s[k] >= s[|s| - 1]);
      assert s[k - 1] < s[k];
    }
  }

  /** With strictly increasing spends the curve passes through every point. */
  lemma CurvePassesThroughPoints(sorted: seq<SpendPoint>, k: int, segment: int)
    requires StrictlyIncreasing(CurveSpends(sorted))
    requires 0 <= k < |sorted|
    requires ChosenSegment(CurveSpends(sorted), sorted[k].dailySpend, segment)
    ensures var pivot := if AboveRange(CurveSpends(sorted), sorted[k].dailySpend) then sorted[segment] else sorted[segment - 1];
      SegmentCpas(sorted[segment - 1], sorted[segment], pivot, sorted[k].dailySpend) == Finite(sorted[k].cpas)
  {
    var s := CurveSpends(sorted);
    ChosenSegmentAtPoint(s, k, segment);
    var lo, hi := sorted[segment - 1], sorted[segment];
    assert s[segment - 1] < s[segment];
    SegmentCpasOnLine(lo, hi, sorted[k].dailySpend);
    OnLineEnds(lo, hi);
  }

  /** Between the two points of the segment chosen for a spend inside the curve's
      range, the CPAS lies between theirs. */
  lemma CurveBetweenBracketingPoints(sorted: seq<SpendPoint>, x: real, segment: int)
    requires ChosenSegment(CurveSpends(sorted), x, segment)
    requires !(x <= sorted[0].dailySpend) && !(x >= sorted[|sorted| - 1].dailySpend)
    requires sorted[segment - 1].dailySpend < sorted[segment].dailySpend
    ensures var lo, hi := sorted[segment - 1], sorted[segment];
      SegmentCpas(lo, hi, lo, x).Finite?
      && Min(lo.cpas, hi.cpas) <= SegmentCpas(lo, hi, lo, x).value <= Max(lo.cpas, hi.cpas)
  {
    var lo, hi := sorted[segment - 1], sorted[segment];
    SegmentCpasOnLine(lo, hi, x);
    OnLineBetween(lo, hi, x);
  }

  /** The interpolation block: sort the points by daily spend, choose the segment,
      and read the CPAS off the line through its ends, pivoting on the upper end
      above the range. Fewer than two points leave `base_cpas` undefined. */
  method SpendCurveCpas(points: seq<SpendPoint>, requested: real) returns (segment: int, r: Result<Extended, string>)
    ensures |points| < 2 ==> r == Err("name 'base_cpas' is not defined")
    ensures |points| >= 2 ==> ChosenSegment(CurveSpends(SortBy(points, SpendKey)), requested, segment)
    ensures |points| >= 2 ==>
      (var sorted := SortBy(points, SpendKey);
       var pivot := if AboveRange(CurveSpends(sorted), requested) then sorted[segment] else sorted[segment - 1];
       r == Ok(SegmentCpas(sorted[segment - 1], sorted[segment], pivot, requested)))
  {
    segment := 1;
    if |points| < 2 {
      return segment, Err("name 'base_cpas' is not defined");
    }
    var sorted := SortBy(points, SpendKey);
    SortBySpec(points, SpendKey);
    var spends := CurveSpends(sorted);
    var last := |spends| - 1;
    if requested <= spends[0] {
      segment := 1;
      r := Ok(SegmentCpas(sorted[0], sorted[1], sorted[0], requested));
    } else if requested >= spends[last] {
      segment := last;
      r := Ok(SegmentCpas(sorted[last - 1], sorted[last], sorted[last], requested));
    } else {
      var i := 1;
      while i < |spends|
        invariant 1 <= i <= |spends|
        invariant spends[i - 1] <= requested
        invariant forall j :: 1 <= j < i ==> !(spends[j - 1] <= requested <= spends[j])
        decreases |spends| - i
      {
        if spends[i - 1] <= requested <= spends[i] {
          segment := i;
          break;
        }
        i := i + 1;
      }
      if i == |spends| {
        assert false;
      }
      r := Ok(SegmentCpas(sorted[segment - 1], sorted[segment], sorted[segment - 1], requested));
    }
  }

  /** The end of the block: CPAS floored at 3.0, apply starts as budget over CPAS,
      then both adjusted for seasonality and CPAS floored at 3.0 again. Python's
      `max` keeps a NaN first argument, and a NaN or infinite CPAS cannot be
      encoded in the JSON response. */
  function FinalEstimate(curve: Extended, budget: real, startDate: Option<Calendar.Date>): (r: Result<(int, real), string>)
    ensures r.Err? <==> curve.PositiveInfinity? || curve.NotANumber?
    ensures r.Ok? ==> r.value.1 >= MIN_CPAS
    ensures curve.NegativeInfinity? ==> r == FinalFromFloored(MIN_CPAS, budget, Seasonality.RequestFactor(startDate))
    ensures curve.Finite? ==> r == FinalFromFloored(Max(curve.value, MIN_CPAS), budget, Seasonality.RequestFactor(startDate))
  {
    var s := Seasonality.RequestFactor(startDate);
    match curve
    case Finite(v) => FinalFromFloored(Max(v, MIN_CPAS), budget, s)
    case NegativeInfinity => FinalFromFloored(MIN_CPAS, budget, s)
    case _ => Err("Out of range float values are not JSON compliant")
  }

  /** The apply starts and CPAS reported for a CPAS floored at 3.0. */
  function FinalFromFloored(floored: real, budget: real, s: real): (r: Result<(int, real), string>)
    requires floored >= MIN_CPAS && 0.80 <= s <= 1.10
    ensures r.Ok? && r.value.1 >= MIN_CPAS
  {
    var applyStarts := if floored > 0.0 then budget / floored else 0.0;
    Ok((Trunc(applyStarts * s), Max(floored / s, MIN_CPAS)))
  }

  /** When the second floor does not bind, the reported apply starts are the budget
      over the reported CPAS, truncated: both carry the same seasonality. */
  lemma FinalEstimateConsistent(floored: real, budget: real, s: real)
    requires floored >= MIN_CPAS && 0.80 <= s <= 1.10
    requires floored / s >= MIN_CPAS
    ensures var r := FinalFromFloored(floored, budget, s);
      r.value.0 == Trunc(budget / r.value.1)
  {
    DivideBySeasonality(budget, floored, s);
  }

  lemma DivideBySeasonality(budget: real, floored: real, s: real)
    requires floored > 0.0 && s > 0.0
    ensures budget / floored * s == budget / (floored / s)
  {
    var q := floored / s;
    assert q * s == floored;
  }

  /** As written, the reported `total_spend`: the budget only when no log period had
      June rows, otherwise the last such period's spend. */
  function TotalSpendAsWritten(budget: real, log: seq<BudgetLogRow>, daily: seq<June.DayTotals>): (t: real)
    ensures LastPeriodSpend(log, daily).None? ==> t == budget
    ensures LastPeriodSpend(log, daily).Some? ==> t == LastPeriodSpend(log, daily).value
  {
    match LastPeriodSpend(log, daily)
    case None => budget
    case Some(spend) => spend
  }

  /** Two one-week flights from June 1 and June 8, with one June day of spend 100 and
      one of spend 200, give the curve its two points, and the endpoint then reports a
      total spend of 200 for a budget of 60000. */
  lemma TotalSpendAsWrittenIsPeriodSpend()
    ensures var first, second := BudgetLogRow(Calendar.JUNE_1_2025, 1), BudgetLogRow(Calendar.JUNE_1_2025 + 7, 1);
      var daily := [June.DayTotals(Calendar.JUNE_1_2025, 100.0, 10.0), June.DayTotals(Calendar.JUNE_1_2025 + 7, 200.0, 10.0)];
      |SpendCurve([first, second], daily)| == 2
      && TotalSpendAsWritten(60000.0, [first, second], daily) == 200.0 != 60000.0
  {
    var first, second := BudgetLogRow(Calendar.JUNE_1_2025, 1), BudgetLogRow(Calendar.JUNE_1_2025 + 7, 1);
    var d1, d2 := June.DayTotals(Calendar.JUNE_1_2025, 100.0, 10.0), June.DayTotals(Calendar.JUNE_1_2025 + 7, 200.0, 10.0);
    var daily, log := [d1, d2], [first, second];
    assert daily[..1] == [d1] && [d1][..0] == [];
    assert log[..1] == [first] && [first][..0] == [];
    assert PeriodRows([d1], first.date, PeriodEnd(first)) == PeriodRows([], first.date, PeriodEnd(first)) + [d1];
    assert PeriodRows(daily, first.date, PeriodEnd(first)) == [d1];
    assert PeriodRows([d1], second.date, PeriodEnd(second)) == PeriodRows([], second.date, PeriodEnd(second));
    assert PeriodRows(daily, second.date, PeriodEnd(second)) == [d2];
    SingleDayPoint(first, daily, d1);
    SingleDayPoint(second, daily, d2);
    assert SpendCurve(log, daily) == SpendCurve([first], daily) + [PeriodPoint(second, daily).value];
    assert SpendCurve([first], daily) == [PeriodPoint(first, daily).value];
    SumOfOne(200.0);
  }

  /** A flight whose period holds one day with spend and apply starts has a point. */
  lemma SingleDayPoint(row: BudgetLogRow, daily: seq<June.DayTotals>, d: June.DayTotals)
    requires PeriodRows(daily, row.date, PeriodEnd(row)) == [d]
    requires row.durationWeeks > 0 && d.spend > 0.0 && d.applyStarts > 0.0
    ensures PeriodPoint(row, daily).Some?
  {
    assert PeriodSpends([d]) == [d.spend] && PeriodApplyStarts([d]) == [d.applyStarts];
    SumOfOne(d.spend);
    SumOfOne(d.applyStarts);
  }

  lemma SumOfOne(x: real)
    ensures Sum([x]) == x
  {
    assert [x][..0] == [];
  }

  /** The endpoint, with the June table, the pacing shares, the regime fits and their
      raw predictions, and the budget log as inputs. The spend reported is the budget
      (see `TotalSpendAsWritten` for the code as written). */
  method CpasForBudget(req: Request, pacingMap: map<int, real>, fits: seq<RegimeFit>, raw: (int, int) -> real,
                       log: seq<BudgetLogRow>, daily: seq<June.DayTotals>)
    returns (r: Result<Estimate, string>)
    ensures Normalise(req).budget < CLOSED_FORM_LIMIT ==> r == Ok(ClosedFormEstimate(req))
    ensures r.Ok? ==> (r.value.cpas >= MIN_CPAS && r.value.budget >= MIN_BUDGET
      && r.value.numDays >= MIN_DURATION && r.value.totalSpend == r.value.budget
      && r.value.seasonality == Seasonality.RequestFactor(req.startDate))
    ensures r.Ok? && Normalise(req).budget >= CLOSED_FORM_LIMIT ==>
      (0.92 <= r.value.confidence <= 1.0 && |r.value.pacing| == r.value.numDays)
    ensures r.Ok? && Normalise(req).budget >= CLOSED_FORM_LIMIT ==>
      (var dates := Normalise(req).targetDates;
       dates != [] && r.value.startDate == dates[0] && r.value.endDate == dates[|dates| - 1]
       && r.value.confidence
          == Round4(AverageConfidence(AllConfidences(fits, |fits|, dates, raw), |AllPredictions(fits, |fits|, dates, raw)|))
       && |r.value.pacing| == |dates|
       && forall i :: 0 <= i < |dates| ==>
            r.value.pacing[i] == PacingTrend(Normalise(req).budget, SelectedShares(pacingMap, dates), dates, i))
    ensures Normalise(req).budget >= CLOSED_FORM_LIMIT && |SpendCurve(log, daily)| < 2 ==> r.Err?
  {
    var w := Normalise(req);
    NormaliseSpec(req);
    if w.budget < CLOSED_FORM_LIMIT {
      ClosedFormSpec(req);
      return Ok(ClosedFormEstimate(req));
    }
    var s := Seasonality.RequestFactor(req.startDate);
    var budget := w.budget;
    var dates := w.targetDates;
    var n := |dates|;
    var predictions, confidences, totalDays := RegimeForecast(fits, dates, raw);
    var avgConfidence := AverageConfidence(confidences, totalDays);
    AverageConfidenceInRange(fits, dates, raw);
    var trends := BuildPacingTrends(budget, pacingMap, dates);
    var points, lastSpend := BudgetCpasPoints(log, daily);
    var requested := if n > 0 then budget / n as real else 0.0;
    var segment, curve := SpendCurveCpas(points, requested);
    if curve.Err? {
      return Err(curve.error);
    }
    var final := FinalEstimate(curve.value, budget, req.startDate);
    if final.Err? {
      return Err(final.error);
    }
    ConfidenceRounding(avgConfidence);
    r := Ok(Estimate(dates[0], dates[n - 1], n, budget, budget, final.value.0, final.value.1,
                     Round4(avgConfidence), trends, s));
  }

  lemma ConfidenceRounding(c: real)
    requires 0.92 <= c <= 1.0
    ensures 0.92 <= Round4(c) <= 1.0
  {
    JobImpact.ConfidenceRoundsInRange(c);
  }
}
