/**
 * The rules of `job_impact_scenarios`: the request's dates are mapped onto a
 * window of June 2025 days, each mapped day's CPAS and apply starts are scaled
 * by seasonality and by quality factors for the current and for perfect job
 * quality, the two average CPAS values are compared, and an optimal number of
 * jobs is chosen with the constraint that limits it.
 */
module JobImpact {
  import opened Common
  import opened Numeric
  import Calendar
  import Seasonality
  import June
  import JobQuality

  /** The integers `lo, lo + 1, ..., hi - 1`, as `range(lo, hi)`. */
  function Range(lo: int, hi: int): (r: seq<int>)
    ensures |r| == MaxInt(hi - lo, 0)
    ensures forall i :: 0 <= i < |r| ==> r[i] == lo + i
    decreases hi - lo
  {
    if hi <= lo then [] else [lo] + Range(lo + 1, hi)
  }

  /** The June days of month a request maps to: from the start date's day of month
      (kept in 1..30) for as many days as the request spans, cut at June 30; without
      both dates, June 1 on for seven days per week of duration (at least seven). */
  function MappedJuneDays(startDate: Option<Calendar.Date>, endDate: Option<Calendar.Date>, duration: int): seq<int>
  {
    if startDate.Some? && endDate.Some? then
      var numDays := endDate.value - startDate.value + 1;
      var firstDay := MinInt(MaxInt(Calendar.Day(startDate.value), 1), 30);
      var lastDay := MinInt(firstDay + numDays - 1, 30);
      Range(firstDay, lastDay + 1)
    else
      var numDays := MaxInt(duration * 7, 7);
      Range(1, MinInt(1 + numDays, 31))
  }

  /** With both dates the mapped days run consecutively from the clamped start day to
      the start day plus the span, cut at 30, and every one of them is a day of June. */
  lemma MappedWindowWithDates(start: Calendar.Date, end: Calendar.Date, duration: int)
    ensures var days := MappedJuneDays(Some(start), Some(end), duration);
      var firstDay := MinInt(MaxInt(Calendar.Day(start), 1), 30);
      var lastDay := MinInt(firstDay + (end - start + 1) - 1, 30);
      |days| == MaxInt(lastDay - firstDay + 1, 0)
      && (forall i :: 0 <= i < |days| ==> days[i] == firstDay + i)
      && (forall i :: 0 <= i < |days| ==> 1 <= days[i] <= 30)
  {
  }

  /** Without both dates they are June 1 to June min(max(7 * duration, 7), 30). */
  lemma MappedWindowWithoutDates(startDate: Option<Calendar.Date>, endDate: Option<Calendar.Date>, duration: int)
    requires startDate.None? || endDate.None?
    ensures var days := MappedJuneDays(startDate, endDate, duration);
      |days| == MinInt(MaxInt(7 * duration, 7), 30)
      && forall i :: 0 <= i < |days| ==> days[i] == i + 1
  {
  }

  /** `pd.Timestamp(year=2025, month=6, day=day)` */
  function JuneDate(day: int): Calendar.Date
  {
    Calendar.JUNE_1_2025 + day - 1
  }

  function JuneDates(days: seq<int>): (r: seq<Calendar.Date>)
    ensures |r| == |days|
    ensures forall i :: 0 <= i < |days| ==> r[i] == JuneDate(days[i])
  {
    seq(|days|, i requires 0 <= i < |days| => JuneDate(days[i]))
  }

  /** A mapped day's date has that day of the month, in June 2025. */
  lemma JuneDateDay(day: int)
    requires 1 <= day <= 30
    ensures Calendar.Day(JuneDate(day)) == day && Calendar.Month(JuneDate(day)) == 6
  {
    Calendar.June2025(day - 1);
  }

  /** The week-of-month regime of a mapped day. */
  function WeekRegime(day: int): int
  {
    if day <= 7 then 1
    else if day <= 14 then 2
    else if day <= 21 then 3
    else 4
  }

  /** Regimes 1 to 3 are the first three weeks; regime 4 takes every later day. */
  lemma WeekRegimeSpec(day: int)
    ensures 1 <= WeekRegime(day) <= 4
    ensures 1 <= day <= 28 ==> WeekRegime(day) == (day - 1) / 7 + 1
    ensures day > 21 ==> WeekRegime(day) == 4
  {
  }

  /** `june_regimes`: the regime of every mapped day, in order. */
  function JuneRegimes(days: seq<int>): (r: seq<int>)
    ensures |r| == |days|
    ensures forall i :: 0 <= i < |days| ==> r[i] == WeekRegime(days[i])
  {
    seq(|days|, i requires 0 <= i < |days| => WeekRegime(days[i]))
  }

  /** A one-feature linear regression, fitted elsewhere: `predict([[x]])`. */
  datatype Line = Line(intercept: real, slope: real)

  function Predict(l: Line, x: real): real
  {
    l.intercept + l.slope * x
  }

  /** What the endpoint takes from its two regressions on job quality: the CPAS and
      the apply-start lines, the job averages they are compared with, and the CPAS
      fit's R², `None` when it is NaN. Absent when fewer than three jobs were fitted. */
  datatype JobRegression = JobRegression(cpasFit: Line, asFit: Line, cpasJuneAvg: real, asJuneAvg: real, r2: Option<real>)

  /** `predicted / average if average > 0 else 1.0` */
  function RelativeTo(predicted: real, average: real): (r: real)
    ensures average > 0.0 ==> r * average == predicted
    ensures average <= 0.0 ==> r == 1.0
  {
    if average > 0.0 then predicted / average else 1.0
  }

  datatype QualityFactors = QualityFactors(cpasCurrent: real, cpasPerfect: real, asCurrent: real, asPerfect: real)

  const PERFECT_QUALITY: real := 100.0

  /** The CPAS and apply-start factors at the average quality and at quality 100. */
  function QualityFactorsOf(reg: JobRegression, avgQuality: real): (f: QualityFactors)
    ensures reg.cpasJuneAvg > 0.0 ==> (f.cpasCurrent * reg.cpasJuneAvg == Predict(reg.cpasFit, avgQuality)
      && f.cpasPerfect * reg.cpasJuneAvg == Predict(reg.cpasFit, PERFECT_QUALITY))
    ensures reg.cpasJuneAvg <= 0.0 ==> f.cpasCurrent == 1.0 && f.cpasPerfect == 1.0
    ensures reg.asJuneAvg > 0.0 ==> (f.asCurrent * reg.asJuneAvg == Predict(reg.asFit, avgQuality)
      && f.asPerfect * reg.asJuneAvg == Predict(reg.asFit, PERFECT_QUALITY))
    ensures reg.asJuneAvg <= 0.0 ==> f.asCurrent == 1.0 && f.asPerfect == 1.0
  {
    QualityFactors(
      RelativeTo(Predict(reg.cpasFit, avgQuality), reg.cpasJuneAvg),
      RelativeTo(Predict(reg.cpasFit, PERFECT_QUALITY), reg.cpasJuneAvg),
      RelativeTo(Predict(reg.asFit, avgQuality), reg.asJuneAvg),
      RelativeTo(Predict(reg.asFit, PERFECT_QUALITY), reg.asJuneAvg))
  }

  /** A mapped day's `CPAS` column, `None` for the NaN of a day without apply
      starts, and its apply starts. */
  datatype DayCpas = DayCpas(cpas: Option<real>, applyStarts: real)

  /** Every day has a CPAS. */
  predicate AllCpas(days: seq<DayCpas>)
  {
    forall i :: 0 <= i < |days| ==> days[i].cpas.Some?
  }

  /** The apply starts predicted for a day: its own, scaled by seasonality and a quality factor. */
  function AsPrediction(d: DayCpas, seasonality: real, asFactor: real): real
  {
    d.applyStarts * seasonality * asFactor
  }

  /** The spend predicted for a day with a CPAS: its scaled CPAS times its predicted apply starts. */
  function KnownSpend(d: DayCpas, seasonality: real, cpasFactor: real, asFactor: real): real
    requires d.cpas.Some?
  {
    (d.cpas.value * seasonality * cpasFactor) * AsPrediction(d, seasonality, asFactor)
  }

  /** The spend predicted for a day, NaN (`None`) when its CPAS is NaN. */
  function SpendPrediction(d: DayCpas, seasonality: real, cpasFactor: real, asFactor: real): (r: Option<real>)
    ensures r.None? <==> d.cpas.None?
  {
    if d.cpas.Some? then Some(KnownSpend(d, seasonality, cpasFactor, asFactor)) else None
  }

  /** The loop over mapped days that fills the four prediction lists. */
  method PerDayPredictions(days: seq<DayCpas>, seasonality: real, f: QualityFactors)
    returns (asCurrent: seq<real>, spendCurrent: seq<Option<real>>, asPerfect: seq<real>, spendPerfect: seq<Option<real>>)
    ensures |asCurrent| == |spendCurrent| == |asPerfect| == |spendPerfect| == |days|
    ensures forall i :: 0 <= i < |days| ==>
      asCurrent[i] == AsPrediction(days[i], seasonality, f.asCurrent)
      && spendCurrent[i] == SpendPrediction(days[i], seasonality, f.cpasCurrent, f.asCurrent)
    ensures forall i :: 0 <= i < |days| ==>
      asPerfect[i] == AsPrediction(days[i], seasonality, f.asPerfect)
      && spendPerfect[i] == SpendPrediction(days[i], seasonality, f.cpasPerfect, f.asPerfect)
  {
    asCurrent, spendCurrent, asPerfect, spendPerfect := [], [], [], [];
    var i := 0;
    while i < |days|
      invariant 0 <= i <= |days|
      invariant |asCurrent| == |spendCurrent| == |asPerfect| == |spendPerfect| == i
      invariant forall k :: 0 <= k < i ==>
        asCurrent[k] == AsPrediction(days[k], seasonality, f.asCurrent)
        && spendCurrent[k] == SpendPrediction(days[k], seasonality, f.cpasCurrent, f.asCurrent)
      invariant forall k :: 0 <= k < i ==>
        asPerfect[k] == AsPrediction(days[k], seasonality, f.asPerfect)
        && spendPerfect[k] == SpendPrediction(days[k], seasonality, f.cpasPerfect, f.asPerfect)
    {
      var d := days[i];
      var asPredCurrent := d.applyStarts * seasonality * f.asCurrent;
      var asPredPerfect := d.applyStarts * seasonality * f.asPerfect;
      asCurrent := asCurrent + [asPredCurrent];
      asPerfect := asPerfect + [asPredPerfect];
      match d.cpas {
        case None =>
          spendCurrent := spendCurrent + [None];
          spendPerfect := spendPerfect + [None];
        case Some(c) =>
          var cpasPredCurrent := c * seasonality * f.cpasCurrent;
          var cpasPredPerfect := c * seasonality * f.cpasPerfect;
          assert cpasPredCurrent * asPredCurrent == KnownSpend(d, seasonality, f.cpasCurrent, f.asCurrent);
          assert cpasPredPerfect * asPredPerfect == KnownSpend(d, seasonality, f.cpasPerfect, f.asPerfect);
          spendCurrent := spendCurrent + [Some(cpasPredCurrent * asPredCurrent)];
          spendPerfect := spendPerfect + [Some(cpasPredPerfect * asPredPerfect)];
      }
      assert spendCurrent[i] == SpendPrediction(d, seasonality, f.cpasCurrent, f.asCurrent);
      assert spendPerfect[i] == SpendPrediction(d, seasonality, f.cpasPerfect, f.asPerfect);
      i := i + 1;
    }
  }

  /** `total_spend / total_as if total_as > 0 else 0` */
  function AverageCpas(spends: seq<real>, applyStarts: seq<real>): (r: real)
    ensures Sum(applyStarts) > 0.0 ==> r * Sum(applyStarts) == Sum(spends)
    ensures Sum(applyStarts) <= 0.0 ==> r == 0.0
  {
    if Sum(applyStarts) > 0.0 then Sum(spends) / Sum(applyStarts) else 0.0
  }

  /** No spend is NaN. */
  predicate AllKnown(xs: seq<Option<real>>)
  {
    forall i :: 0 <= i < |xs| ==> xs[i].Some?
  }

  function Values(xs: seq<Option<real>>): (r: seq<real>)
    requires AllKnown(xs)
    ensures |r| == |xs| && forall i :: 0 <= i < |xs| ==> Some(r[i]) == xs[i]
  {
    seq(|xs|, i requires 0 <= i < |xs| => xs[i].value)
  }

  /** The average over spends some of which may be NaN: a NaN spend makes the
      spend total NaN, which the `> 0` guard on the apply-start total drops. */
  function AverageCpasOrNaN(spends: seq<Option<real>>, applyStarts: seq<real>): (r: Option<real>)
    ensures Sum(applyStarts) <= 0.0 ==> r == Some(0.0)
    ensures Sum(applyStarts) > 0.0 ==> (r.None? <==> !AllKnown(spends))
    ensures AllKnown(spends) ==> r == Some(AverageCpas(Values(spends), applyStarts))
  {
    if Sum(applyStarts) <= 0.0 then Some(0.0)
    else if AllKnown(spends) then Some(AverageCpas(Values(spends), applyStarts))
    else None
  }

  function DayApplyStarts(days: seq<DayCpas>): seq<real>
  {
    seq(|days|, i requires 0 <= i < |days| => days[i].applyStarts)
  }

  /** Each day's CPAS weighted by its apply starts, which is the day's spend. */
  function DayWeightedCpas(days: seq<DayCpas>): seq<real>
    requires AllCpas(days)
  {
    seq(|days|, i requires 0 <= i < |days| => days[i].cpas.value * days[i].applyStarts)
  }

  /** The predicted average CPAS is the seasonality times the CPAS quality factor times
      the June days' own CPAS averaged with apply-start weights: the apply-start
      quality factor cancels. */
  lemma AverageCpasIsWeighted(days: seq<DayCpas>, seasonality: real, cpasFactor: real, asFactor: real,
                              asPreds: seq<real>, spendPreds: seq<real>)
    requires AllCpas(days)
    requires |asPreds| == |spendPreds| == |days|
    requires forall i :: 0 <= i < |days| ==> (asPreds[i] == AsPrediction(days[i], seasonality, asFactor)
      && spendPreds[i] == KnownSpend(days[i], seasonality, cpasFactor, asFactor))
    requires seasonality * asFactor > 0.0
    requires Sum(DayApplyStarts(days)) > 0.0
    ensures AverageCpas(spendPreds, asPreds) * Sum(DayApplyStarts(days))
      == seasonality * cpasFactor * Sum(DayWeightedCpas(days))
  {
    ScaledSums(days, seasonality, cpasFactor, asFactor, asPreds, spendPreds);
    AverageFromSums(spendPreds, asPreds, seasonality * asFactor, Sum(DayApplyStarts(days)),
      seasonality * cpasFactor, Sum(DayWeightedCpas(days)));
  }

  /** Totals `k * a` of apply starts and `(m * k) * w` of spend average to `m * w / a`. */
  lemma AverageFromSums(spendPreds: seq<real>, asPreds: seq<real>, k: real, a: real, m: real, w: real)
    requires k > 0.0 && a > 0.0
    requires Sum(asPreds) == k * a && Sum(spendPreds) == (m * k) * w
    ensures AverageCpas(spendPreds, asPreds) * a == m * w
  {
    PositiveProduct(k, a);
    CancelFactor(AverageCpas(spendPreds, asPreds), k, a, m, w, Sum(asPreds), Sum(spendPreds));
  }

  lemma ScaledSums(days: seq<DayCpas>, seasonality: real, cpasFactor: real, asFactor: real,
                   asPreds: seq<real>, spendPreds: seq<real>)
    requires AllCpas(days)
    requires |asPreds| == |spendPreds| == |days|
    requires forall i :: 0 <= i < |days| ==> (asPreds[i] == AsPrediction(days[i], seasonality, asFactor)
      && spendPreds[i] == KnownSpend(days[i], seasonality, cpasFactor, asFactor))
    ensures Sum(asPreds) == (seasonality * asFactor) * Sum(DayApplyStarts(days))
    ensures Sum(spendPreds) == ((seasonality * cpasFactor) * (seasonality * asFactor)) * Sum(DayWeightedCpas(days))
  {
    ScaledApplyStarts(days, seasonality, asFactor, asPreds);
    ScaledSpends(days, seasonality, cpasFactor, asFactor, spendPreds);
  }

  lemma ScaledApplyStarts(days: seq<DayCpas>, seasonality: real, asFactor: real, asPreds: seq<real>)
    requires |asPreds| == |days|
    requires forall i :: 0 <= i < |days| ==> asPreds[i] == AsPrediction(days[i], seasonality, asFactor)
    ensures Sum(asPreds) == (seasonality * asFactor) * Sum(DayApplyStarts(days))
  {
    var applyStarts := DayApplyStarts(days);
    forall i | 0 <= i < |days|
      ensures asPreds[i] == (seasonality * asFactor) * applyStarts[i]
    {
      AsTerm(days, i, seasonality, asFactor, asPreds[i]);
    }
    SumScale(applyStarts, asPreds, seasonality * asFactor);
  }

  lemma ScaledSpends(days: seq<DayCpas>, seasonality: real, cpasFactor: real, asFactor: real, spendPreds: seq<real>)
    requires AllCpas(days) && |spendPreds| == |days|
    requires forall i :: 0 <= i < |days| ==> spendPreds[i] == KnownSpend(days[i], seasonality, cpasFactor, asFactor)
    ensures Sum(spendPreds) == ((seasonality * cpasFactor) * (seasonality * asFactor)) * Sum(DayWeightedCpas(days))
  {
    var weighted := DayWeightedCpas(days);
    var c := (seasonality * cpasFactor) * (seasonality * asFactor);
    forall i | 0 <= i < |days|
      ensures spendPreds[i] == c * weighted[i]
    {
      SpendTerm(days, i, seasonality, cpasFactor, asFactor, spendPreds[i]);
    }
    SumScale(weighted, spendPreds, c);
  }

  lemma AsTerm(days: seq<DayCpas>, i: int, s: real, g: real, p: real)
    requires 0 <= i < |days| && p == AsPrediction(days[i], s, g)
    ensures p == (s * g) * DayApplyStarts(days)[i]
  {
    AsRearrange(days[i], s, g);
  }

  lemma SpendTerm(days: seq<DayCpas>, i: int, s: real, f: real, g: real, p: real)
    requires AllCpas(days) && 0 <= i < |days| && p == KnownSpend(days[i], s, f, g)
    ensures p == ((s * f) * (s * g)) * DayWeightedCpas(days)[i]
  {
    SpendRearrange(days[i], s, f, g);
  }

  lemma AsRearrange(d: DayCpas, s: real, g: real)
    ensures AsPrediction(d, s, g) == (s * g) * d.applyStarts
  {
  }

  lemma SpendRearrange(d: DayCpas, s: real, f: real, g: real)
    requires d.cpas.Some?
    ensures KnownSpend(d, s, f, g) == ((s * f) * (s * g)) * (d.cpas.value * d.applyStarts)
  {
    AsRearrange(d, s, g);
    Rearrange(d.cpas.value, d.applyStarts, s, f, g);
  }

  lemma PositiveProduct(k: real, a: real)
    requires k > 0.0 && a > 0.0
    ensures k * a > 0.0
  {
  }

  lemma CancelFactor(avg: real, k: real, a: real, m: real, w: real, sumAs: real, sumSpend: real)
    requires k > 0.0 && a > 0.0
    requires sumAs == k * a && sumSpend == (m * k) * w
    requires sumAs > 0.0 ==> avg * sumAs == sumSpend
    ensures avg * a == m * w
  {
    PositiveProduct(k, a);
    assert k * (avg * a) == k * (m * w);
  }

  lemma Rearrange(cpas: real, applyStarts: real, s: real, f: real, g: real)
    ensures applyStarts * s * g == (s * g) * applyStarts
    ensures (cpas * s * f) * (applyStarts * s * g) == ((s * f) * (s * g)) * (cpas * applyStarts)
  {
  }

  lemma RatioCancels(k: real, m: real, a: real, w: real, sumAs: real, sumSpend: real)
    requires k > 0.0 && a > 0.0
    requires sumAs == k * a && sumSpend == m * k * w
    ensures sumAs > 0.0 && sumSpend / sumAs * a == m * w
  {
    assert sumAs > 0.0;
    assert sumSpend / sumAs == m * w / a;
  }

  /** The safeguard: a perfect-quality CPAS above the current one is replaced by 85% of it. */
  function Safeguard(perfect: real, current: real): (r: real)
    ensures perfect <= current ==> r == perfect
    ensures perfect > current ==> r == current * 0.85
    ensures 0.0 <= current ==> r <= current
  {
    if perfect > current then current * 0.85 else perfect
  }

  /** The `data1` rows of the mapped days, summarised: distinct jobs, spend and apply starts. */
  datatype MappedJobTotals = MappedJobTotals(jobCount: int, spend: real, applyStarts: real)

  /** A total shared out over the jobs, or 0 without jobs. */
  function PerJob(total: real, jobCount: int): (r: real)
    ensures jobCount > 0 ==> r * jobCount as real == total
    ensures jobCount <= 0 ==> r == 0.0
  {
    if jobCount > 0 then total / jobCount as real else 0.0
  }

  /** `int(amount / per_job) if per_job > 0 else 1`: how many whole jobs the amount covers. */
  function JobsCovered(amount: real, perJob: real): (r: int)
    ensures perJob <= 0.0 ==> r == 1
    ensures perJob > 0.0 && amount >= 0.0 ==> 0 <= r && r as real * perJob <= amount < (r as real + 1.0) * perJob
  {
    if perJob > 0.0 then
      var q := amount / perJob;
      var t := Trunc(q);
      CoveredBounds(amount, perJob, q, t);
      t
    else 1
  }

  lemma CoveredBounds(amount: real, perJob: real, q: real, t: int)
    requires perJob > 0.0 && q == amount / perJob && t == Trunc(q)
    ensures amount >= 0.0 ==> 0 <= t && t as real * perJob <= amount < (t as real + 1.0) * perJob
  {
    if amount >= 0.0 {
      DivLower(amount, perJob, t as real);
      DivUpper(amount, perJob, t as real + 1.0);
    }
  }

  /** `max(1, int(june_job_count * (len(mapped_june_days) / 30)))` */
  function JobsByDuration(jobCount: int, mappedDays: int): (r: int)
    ensures r >= 1
    ensures jobCount >= 0 && 0 <= mappedDays <= 30 ==> r <= MaxInt(1, jobCount)
  {
    var scaled := jobCount as real * (mappedDays as real / 30.0);
    ScaledJobsBound(jobCount, mappedDays, scaled);
    MaxInt(1, Trunc(scaled))
  }

  lemma ScaledJobsBound(jobCount: int, mappedDays: int, scaled: real)
    requires scaled == jobCount as real * (mappedDays as real / 30.0)
    ensures jobCount >= 0 && 0 <= mappedDays <= 30 ==> Trunc(scaled) <= jobCount
  {
    if jobCount >= 0 && 0 <= mappedDays <= 30 {
      assert scaled <= jobCount as real;
      TruncMonotone(scaled, jobCount as real);
    }
  }

  /** The constraint named in `optimal_job_count_reason`. */
  datatype Limit = ByBudget | ByGoal | ByDuration | ByAllConstraints

  datatype JobCountAdvice = JobCountAdvice(count: int, limit: Limit, belowGoal: bool)

  function MaxJobsByBudget(budget: real, t: MappedJobTotals): int
  {
    JobsCovered(budget, PerJob(t.spend, t.jobCount))
  }

  function JobsNeededForGoal(asGoal: int, t: MappedJobTotals): int
  {
    JobsCovered(asGoal as real, PerJob(t.applyStarts, t.jobCount))
  }

  /** The optimal job count: the least of the three limits, at least 1, with the first
      limit (budget, then goal, then duration) it equals, and a note when the projected
      apply starts fall short of the goal. */
  function OptimalJobCount(budget: real, asGoal: int, t: MappedJobTotals, mappedDays: int): JobCountAdvice
  {
    var byBudget := MaxJobsByBudget(budget, t);
    var byGoal := JobsNeededForGoal(asGoal, t);
    var byDuration := JobsByDuration(t.jobCount, mappedDays);
    var count := MaxInt(1, MinInt(MinInt(byBudget, byGoal), byDuration));
    var limit :=
      if count == byBudget then ByBudget
      else if count == byGoal then ByGoal
      else if count == byDuration then ByDuration
      else ByAllConstraints;
    var projectedAs := count as real * PerJob(t.applyStarts, t.jobCount);
    JobCountAdvice(count, limit, projectedAs < asGoal as real)
  }

  lemma OptimalJobCountSpec(budget: real, asGoal: int, t: MappedJobTotals, mappedDays: int)
    ensures var a := OptimalJobCount(budget, asGoal, t, mappedDays);
      var byBudget, byGoal, byDuration := MaxJobsByBudget(budget, t), JobsNeededForGoal(asGoal, t), JobsByDuration(t.jobCount, mappedDays);
      var least := MinInt(MinInt(byBudget, byGoal), byDuration);
      a.count >= 1
      && (least >= 1 ==> a.count == least && a.limit != ByAllConstraints)
      && (least < 1 ==> a.count == 1)
      && (a.limit == ByBudget <==> a.count == byBudget)
      && (a.limit == ByGoal <==> a.count != byBudget && a.count == byGoal)
      && (a.limit == ByDuration <==> a.count != byBudget && a.count != byGoal && a.count == byDuration)
      && (a.belowGoal <==> a.count as real * PerJob(t.applyStarts, t.jobCount) < asGoal as real)
  {
  }

  /** The CPAS fit's R² clamped to [0.92, 1.0]; `min(1.0, nan)` is 1.0, so a NaN R² gives
      full confidence. Without a regression the confidence is 0.92. */
  function ImpactConfidence(reg: Option<JobRegression>): (c: real)
    ensures 0.92 <= c <= 1.0
    ensures reg.None? ==> c == 0.92
    ensures reg.Some? && reg.value.r2.None? ==> c == 1.0
    ensures reg.Some? && reg.value.r2.Some? && 0.92 <= reg.value.r2.value <= 1.0 ==> c == reg.value.r2.value
  {
    match reg
    case None => 0.92
    case Some(g) =>
      var capped := match g.r2 case None => 1.0 case Some(r2) => Min(1.0, r2);
      Max(0.92, capped)
  }

  datatype ImpactError = NoJuneData | NoJobs | MissingDay(date: Calendar.Date) | NoRegression | NoCpas

  /** The `job_impact_scenarios` response, without its debug block. */
  datatype ImpactReport = ImpactReport(
    overallQuality: real,
    cpasIfPerfect: real,
    cpasCurrent: real,
    asIfPerfect: int,
    asCurrent: int,
    advice: JobCountAdvice,
    confidence: real,
    mappedDates: seq<Calendar.Date>)

  /** The mapped dates of a request. */
  function MappedDates(startDate: Option<Calendar.Date>, endDate: Option<Calendar.Date>, duration: int): seq<Calendar.Date>
  {
    JuneDates(MappedJuneDays(startDate, endDate, duration))
  }

  /** Some June row falls on a mapped date. */
  predicate AnySelected(rows: seq<June.DayTotals>, dates: seq<Calendar.Date>)
  {
    exists i :: 0 <= i < |rows| && rows[i].date in dates
  }

  /** `june_daily.set_index(date).loc[dates]`: every mapped date's row, or the first date with none. */
  function LookupDays(rows: seq<June.DayTotals>, dates: seq<Calendar.Date>): (r: Result<seq<June.DayTotals>, ImpactError>)
    ensures r.Ok? <==> forall i :: 0 <= i < |dates| ==> June.Find(rows, dates[i]).Some?
    ensures r.Ok? ==> |r.value| == |dates| && forall i :: 0 <= i < |dates| ==> r.value[i] == June.Find(rows, dates[i]).value
    ensures r.Err? ==> r.error.MissingDay?
  {
    if dates == [] then Ok([])
    else
      match June.Find(rows, dates[0])
      case None => Err(MissingDay(dates[0]))
      case Some(d) =>
        match LookupDays(rows, dates[1..])
        case Err(e) => Err(e)
        case Ok(rest) => Ok([d] + rest)
  }

  /** The looked-up days' `CPAS` and apply starts; the CPAS is NaN exactly on the days
      without apply starts. */
  function CpasDays(days: seq<June.DayTotals>): (r: seq<DayCpas>)
    ensures |r| == |days|
    ensures forall i :: 0 <= i < |days| ==>
      (r[i].applyStarts == days[i].applyStarts
       && (r[i].cpas.None? <==> days[i].applyStarts == 0.0)
       && (r[i].cpas.Some? ==> June.Explains(r[i].cpas.value, days[i])))
    ensures AllCpas(r) <==> forall i :: 0 <= i < |days| ==> days[i].applyStarts != 0.0
  {
    seq(|days|, i requires 0 <= i < |days| => DayCpas(June.Cpas(days[i]), days[i].applyStarts))
  }

  function AsPredictions(days: seq<DayCpas>, seasonality: real, asFactor: real): (r: seq<real>)
    ensures |r| == |days| && forall i :: 0 <= i < |days| ==> r[i] == AsPrediction(days[i], seasonality, asFactor)
  {
    seq(|days|, i requires 0 <= i < |days| => AsPrediction(days[i], seasonality, asFactor))
  }

  function SpendPredictions(days: seq<DayCpas>, seasonality: real, cpasFactor: real, asFactor: real): (r: seq<Option<real>>)
    ensures |r| == |days| && forall i :: 0 <= i < |days| ==> r[i] == SpendPrediction(days[i], seasonality, cpasFactor, asFactor)
    ensures AllKnown(r) <==> AllCpas(days)
  {
    seq(|days|, i requires 0 <= i < |days| => SpendPrediction(days[i], seasonality, cpasFactor, asFactor))
  }

  /** The four values the response rounds: the current and the perfect-quality average
      CPAS, the second after the safeguard, and the two apply-start totals. */
  datatype Predicted = Predicted(cpasCurrent: real, cpasPerfect: real, asCurrent: real, asPerfect: real)

  /** The predicted values over the mapped days, or `None` when a NaN CPAS reaches one of
      the two averages, which happens when a day lacks a CPAS and the apply-start total
      of that average is positive. */
  function Predictions(days: seq<DayCpas>, seasonality: real, f: QualityFactors): (p: Option<Predicted>)
    ensures p.None? <==>
      (!AllCpas(days)
       && (Sum(AsPredictions(days, seasonality, f.asCurrent)) > 0.0 || Sum(AsPredictions(days, seasonality, f.asPerfect)) > 0.0))
    ensures p.Some? ==>
      (p.value.asCurrent == Sum(AsPredictions(days, seasonality, f.asCurrent))
       && p.value.asPerfect == Sum(AsPredictions(days, seasonality, f.asPerfect)))
    ensures p.Some? && p.value.asCurrent <= 0.0 ==> p.value.cpasCurrent == 0.0
    ensures p.Some? && 0.0 <= p.value.cpasCurrent ==> p.value.cpasPerfect <= p.value.cpasCurrent
  {
    var asCurrent := AsPredictions(days, seasonality, f.asCurrent);
    var asPerfect := AsPredictions(days, seasonality, f.asPerfect);
    var current := AverageCpasOrNaN(SpendPredictions(days, seasonality, f.cpasCurrent, f.asCurrent), asCurrent);
    var perfect := AverageCpasOrNaN(SpendPredictions(days, seasonality, f.cpasPerfect, f.asPerfect), asPerfect);
    if current.None? || perfect.None? then None
    else Some(Predicted(current.value, Safeguard(perfect.value, current.value), Sum(asCurrent), Sum(asPerfect)))
  }

  /** The predicted apply-start totals are the June days' total scaled by the
      seasonality and the apply-start quality factor. */
  lemma PredictedApplyStarts(days: seq<DayCpas>, seasonality: real, asFactor: real)
    ensures Sum(AsPredictions(days, seasonality, asFactor)) == (seasonality * asFactor) * Sum(DayApplyStarts(days))
  {
    ScaledApplyStarts(days, seasonality, asFactor, AsPredictions(days, seasonality, asFactor));
  }

  /** When every mapped day has a CPAS, the current average CPAS is the seasonality
      times the CPAS quality factor times the apply-start-weighted June CPAS. */
  lemma PredictionsWeighted(days: seq<DayCpas>, seasonality: real, f: QualityFactors)
    requires AllCpas(days)
    requires seasonality * f.asCurrent > 0.0 && Sum(DayApplyStarts(days)) > 0.0
    ensures Predictions(days, seasonality, f).Some?
    ensures Predictions(days, seasonality, f).value.cpasCurrent * Sum(DayApplyStarts(days))
      == seasonality * f.cpasCurrent * Sum(DayWeightedCpas(days))
  {
    var asCurrent := AsPredictions(days, seasonality, f.asCurrent);
    var spends := SpendPredictions(days, seasonality, f.cpasCurrent, f.asCurrent);
    var known := Values(spends);
    forall i | 0 <= i < |days|
      ensures known[i] == KnownSpend(days[i], seasonality, f.cpasCurrent, f.asCurrent)
    {
      assert Some(known[i]) == spends[i];
    }
    AverageCpasIsWeighted(days, seasonality, f.cpasCurrent, f.asCurrent, asCurrent, known);
  }

  /** The endpoint. The June table, the quality sheet's rows, the regressions and the
      job totals of the mapped days are its inputs. The errors come in the order the
      source raises them; `NoCpas` is the NaN the response cannot encode. */
  method JobImpactScenarios(budget: real, duration: int, asGoal: int,
                            startDate: Option<Calendar.Date>, endDate: Option<Calendar.Date>,
                            juneDaily: seq<June.DayTotals>, rows: seq<JobQuality.CsvRow>,
                            regression: Option<JobRegression>, totals: MappedJobTotals)
    returns (r: Result<ImpactReport, ImpactError>)
    ensures var dates := MappedDates(startDate, endDate, duration);
      !AnySelected(juneDaily, dates) <==> r == Err(NoJuneData)
    ensures var dates := MappedDates(startDate, endDate, duration);
      AnySelected(juneDaily, dates) && JobQuality.Kept(rows) == [] ==> r == Err(NoJobs)
    ensures var dates := MappedDates(startDate, endDate, duration);
      AnySelected(juneDaily, dates) && JobQuality.Kept(rows) != [] && LookupDays(juneDaily, dates).Err?
      ==> r == Err(LookupDays(juneDaily, dates).error)
    ensures var dates := MappedDates(startDate, endDate, duration);
      AnySelected(juneDaily, dates) && JobQuality.Kept(rows) != [] && LookupDays(juneDaily, dates).Ok? && regression.None?
      ==> r == Err(NoRegression)
    ensures var dates := MappedDates(startDate, endDate, duration);
      AnySelected(juneDaily, dates) && JobQuality.Kept(rows) != [] && LookupDays(juneDaily, dates).Ok? && regression.Some?
      ==> var quality := JobQuality.AverageQuality(JobQuality.Scores(rows)).value;
        var p := Predictions(CpasDays(LookupDays(juneDaily, dates).value), Seasonality.RequestFactor(startDate),
                             QualityFactorsOf(regression.value, quality));
        (p.None? <==> r == Err(NoCpas))
        && (p.Some? ==>
             (r.Ok? && r.value.overallQuality == Round1(quality)
              && r.value.cpasCurrent == Round2(p.value.cpasCurrent) && r.value.cpasIfPerfect == Round2(p.value.cpasPerfect)
              && r.value.asCurrent == RoundHalfEven(p.value.asCurrent) && r.value.asIfPerfect == RoundHalfEven(p.value.asPerfect)
              && (0.0 <= p.value.cpasCurrent ==> r.value.cpasIfPerfect <= r.value.cpasCurrent)))
    ensures r.Ok? ==> r.value.mappedDates == MappedDates(startDate, endDate, duration)
    ensures r.Ok? ==> 0.0 <= r.value.overallQuality <= 100.0
    ensures r.Ok? ==> 0.92 <= r.value.confidence <= 1.0 && r.value.confidence == Round4(ImpactConfidence(regression))
    ensures r.Ok? ==> (r.value.advice == OptimalJobCount(budget, asGoal, totals, |r.value.mappedDates|)
      && r.value.advice.count >= 1)
  {
    var dates := MappedDates(startDate, endDate, duration);
    if !AnySelected(juneDaily, dates) {
      return Err(NoJuneData);
    }
    var scores := JobQuality.CollectQualityScores(rows);
    if scores == [] {
      return Err(NoJobs);
    }
    var avgQuality := Sum(scores) / |scores| as real;
    JobQuality.AverageQualityInRange(scores);
    assert JobQuality.AverageQuality(scores) == Some(avgQuality);
    var looked := LookupDays(juneDaily, dates);
    if looked.Err? {
      return Err(looked.error);
    }
    if regression.None? {
      return Err(NoRegression);
    }
    var days := CpasDays(looked.value);
    var seasonality := Seasonality.RequestFactor(startDate);
    var factors := QualityFactorsOf(regression.value, avgQuality);
    var advice := OptimalJobCount(budget, asGoal, totals, |dates|);
    OptimalJobCountSpec(budget, asGoal, totals, |dates|);
    var confidence := ImpactConfidence(regression);
    QualityRoundsInRange(avgQuality);
    ConfidenceRoundsInRange(confidence);
    r := PredictScenarios(days, seasonality, factors, avgQuality, advice, confidence, dates);
  }

  /** The prediction loop, the two averages, the safeguard and the rounding of the
      response, once the days, the factors, the advice and the confidence are known. */
  method PredictScenarios(days: seq<DayCpas>, seasonality: real, factors: QualityFactors, quality: real,
                          advice: JobCountAdvice, confidence: real, dates: seq<Calendar.Date>)
    returns (r: Result<ImpactReport, ImpactError>)
    ensures var p := Predictions(days, seasonality, factors);
      (p.None? <==> r == Err(NoCpas))
      && (p.Some? ==> r == Ok(ImpactReport(Round1(quality), Round2(p.value.cpasPerfect), Round2(p.value.cpasCurrent),
                                           RoundHalfEven(p.value.asPerfect), RoundHalfEven(p.value.asCurrent),
                                           advice, Round4(confidence), dates)))
    ensures r.Ok? && 0.0 <= Predictions(days, seasonality, factors).value.cpasCurrent
      ==> r.value.cpasIfPerfect <= r.value.cpasCurrent
  {
    var asCurrent, spendCurrent, asPerfect, spendPerfect := PerDayPredictions(days, seasonality, factors);
    assert asCurrent == AsPredictions(days, seasonality, factors.asCurrent);
    assert asPerfect == AsPredictions(days, seasonality, factors.asPerfect);
    assert spendCurrent == SpendPredictions(days, seasonality, factors.cpasCurrent, factors.asCurrent);
    assert spendPerfect == SpendPredictions(days, seasonality, factors.cpasPerfect, factors.asPerfect);
    var cpasCurrent := AverageCpasOrNaN(spendCurrent, asCurrent);
    var averagePerfect := AverageCpasOrNaN(spendPerfect, asPerfect);
    // The safeguard's `>` is false when either average is NaN.
    var cpasPerfect := if averagePerfect.Some? && cpasCurrent.Some?
      then Some(Safeguard(averagePerfect.value, cpasCurrent.value)) else averagePerfect;
    if cpasCurrent.None? || cpasPerfect.None? {
      return Err(NoCpas);
    }
    var p := Predictions(days, seasonality, factors);
    assert p == Some(Predicted(cpasCurrent.value, cpasPerfect.value, Sum(asCurrent), Sum(asPerfect)));
    if 0.0 <= cpasCurrent.value {
      Round2Monotone(cpasPerfect.value, cpasCurrent.value);
    }
    r := Ok(ImpactReport(Round1(quality), Round2(cpasPerfect.value), Round2(cpasCurrent.value),
                         RoundHalfEven(Sum(asPerfect)), RoundHalfEven(Sum(asCurrent)),
                         advice, Round4(confidence), dates));
  }

  lemma QualityRoundsInRange(q: real)
    requires 0.0 <= q <= 100.0
    ensures 0.0 <= Round1(q) <= 100.0
  {
    Round1Monotone(0.0, q);
    Round1Monotone(q, 100.0);
    Round1OnGrid(0.0);
    Round1OnGrid(100.0);
  }

  lemma ConfidenceRoundsInRange(c: real)
    requires 0.92 <= c <= 1.0
    ensures 0.92 <= Round4(c) <= 1.0
  {
    Round4Monotone(0.92, c);
    Round4Monotone(c, 1.0);
    assert Round4(0.92) == 0.92 by {
      assert (0.92 * 10000.0).Floor == 9200;
    }
    assert Round4(1.0) == 1.0 by {
      assert (1.0 * 10000.0).Floor == 10000;
    }
  }
}
