/**
 * The delivery envelope of `boundaries_for_budget`: the `duration` cheapest and
 * the `duration` dearest June days by CPAS, each summed into apply starts, spend
 * and an average CPAS, and scaled down to the budget when their spend exceeds it.
 */
module Boundaries {
  import opened Common
  import opened Numeric
  import opened Sorting
  import Calendar

  /** A row of the `daily` table: a June day's summed spend and apply starts, and
      their ratio. Days without apply starts are not in the table. */
  datatype CpasDay = CpasDay(date: Calendar.Date, spend: real, applyStarts: real, cpas: real)

  /** The table's own invariant: apply starts are positive and CPAS is spend over apply starts. */
  predicate WellFormed(days: seq<CpasDay>)
  {
    forall i :: 0 <= i < |days| ==> WellFormedDay(days[i])
  }

  predicate WellFormedDay(d: CpasDay)
  {
    d.applyStarts > 0.0 && d.cpas * d.applyStarts == d.spend
  }

  predicate CpasWithin(d: CpasDay, lo: real, hi: real)
  {
    lo <= d.cpas <= hi
  }

  function CpasKey(d: CpasDay): real { d.cpas }

  function NegatedCpasKey(d: CpasDay): real { -d.cpas }

  /** The first `n` elements; none for `n <= 0`, all of them for `n` past the end. */
  function Take<T>(xs: seq<T>, n: int): seq<T>
  {
    if n <= 0 then [] else if n >= |xs| then xs else xs[..n]
  }

  /** What `Take` leaves. */
  function Drop<T>(xs: seq<T>, n: int): seq<T>
  {
    if n <= 0 then xs else if n >= |xs| then [] else xs[n..]
  }

  lemma TakeDrop<T>(xs: seq<T>, n: int)
    ensures Take(xs, n) + Drop(xs, n) == xs
    ensures |Take(xs, n)| == if n <= 0 then 0 else MinInt(n, |xs|)
  {
  }

  /** `daily.nsmallest(n, 'CPAS')` and `daily.nlargest(n, 'CPAS')`; ties between equal
      CPAS values are broken by table order. */
  function Cheapest(days: seq<CpasDay>, n: int): seq<CpasDay>
  {
    Take(SortBy(days, CpasKey), n)
  }

  function Dearest(days: seq<CpasDay>, n: int): seq<CpasDay>
  {
    Take(SortBy(days, NegatedCpasKey), n)
  }

  /** The cheapest selection has `n` (or every) day, taken from the table, and no
      day left out is cheaper than a day taken. */
  lemma CheapestSpec(days: seq<CpasDay>, n: int)
    ensures |Cheapest(days, n)| == if n <= 0 then 0 else MinInt(n, |days|)
    ensures var rest := Drop(SortBy(days, CpasKey), n);
      multiset(Cheapest(days, n)) + multiset(rest) == multiset(days)
      && forall x, y :: x in Cheapest(days, n) && y in rest ==> x.cpas <= y.cpas
  {
    var sorted := SortBy(days, CpasKey);
    SortBySpec(days, CpasKey);
    TakeDrop(sorted, n);
    SplitSorted(sorted, n, CpasKey);
    assert multiset(Take(sorted, n)) + multiset(Drop(sorted, n)) == multiset(sorted);
  }

  /** The dearest selection mirrors it: no day left out is dearer than a day taken. */
  lemma DearestSpec(days: seq<CpasDay>, n: int)
    ensures |Dearest(days, n)| == if n <= 0 then 0 else MinInt(n, |days|)
    ensures var rest := Drop(SortBy(days, NegatedCpasKey), n);
      multiset(Dearest(days, n)) + multiset(rest) == multiset(days)
      && forall x, y :: x in Dearest(days, n) && y in rest ==> x.cpas >= y.cpas
  {
    var sorted := SortBy(days, NegatedCpasKey);
    SortBySpec(days, NegatedCpasKey);
    TakeDrop(sorted, n);
    SplitSorted(sorted, n, NegatedCpasKey);
    assert multiset(Take(sorted, n)) + multiset(Drop(sorted, n)) == multiset(sorted);
  }

  lemma SplitSorted<T>(sorted: seq<T>, n: int, key: T -> real)
    requires SortedBy(sorted, key)
    ensures forall x, y :: x in Take(sorted, n) && y in Drop(sorted, n) ==> key(x) <= key(y)
  {
    forall x, y | x in Take(sorted, n) && y in Drop(sorted, n)
      ensures key(x) <= key(y)
    {
      var i :| 0 <= i < |Take(sorted, n)| && Take(sorted, n)[i] == x;
      var j :| 0 <= j < |Drop(sorted, n)| && Drop(sorted, n)[j] == y;
      assert Take(sorted, n)[i] == sorted[i];
      assert Drop(sorted, n)[j] == sorted[n + j];
    }
  }

  function Spends(days: seq<CpasDay>): seq<real>
  {
    seq(|days|, i requires 0 <= i < |days| => days[i].spend)
  }

  function ApplyStarts(days: seq<CpasDay>): seq<real>
  {
    seq(|days|, i requires 0 <= i < |days| => days[i].applyStarts)
  }

  /** One side of the envelope as reported. */
  datatype Envelope = Envelope(applyStarts: int, spend: real, cpas: real)

  /** Sums a selection; when its spend exceeds the budget, apply starts are scaled
      by budget over spend and truncated, and spend becomes the budget. CPAS is
      taken from the sums before scaling. A negative budget above a zero spend
      makes the scale infinite and the truncation fail. */
  function EnvelopeOf(days: seq<CpasDay>, budget: real): (r: Result<Envelope, string>)
    ensures r.Err? <==> Sum(Spends(days)) == 0.0 && budget < 0.0
    ensures r.Ok? ==> r.value.spend == Min(Sum(Spends(days)), budget)
    ensures r.Ok? && Sum(ApplyStarts(days)) > 0.0 ==> r.value.cpas * Sum(ApplyStarts(days)) == Sum(Spends(days))
    ensures r.Ok? && Sum(ApplyStarts(days)) <= 0.0 ==> r.value.cpas == 0.0
    ensures Sum(Spends(days)) <= budget ==> r == Ok(Envelope(Trunc(Sum(ApplyStarts(days))), Sum(Spends(days)), r.value.cpas))
    ensures r.Ok? && Sum(Spends(days)) > budget ==>
      r.value.applyStarts == ScaledDown(Sum(ApplyStarts(days)), Sum(Spends(days)), budget)
    ensures r.Ok? && budget >= 0.0 && Sum(ApplyStarts(days)) >= 0.0 ==>
      0 <= r.value.applyStarts <= Trunc(Sum(ApplyStarts(days)))
  {
    var applyStarts := Sum(ApplyStarts(days));
    var spend := Sum(Spends(days));
    var cpas := if applyStarts > 0.0 then spend / applyStarts else 0.0;
    if spend > budget then
      if spend == 0.0 then Err("cannot convert an infinite scale to int")
      else Ok(Envelope(ScaledDown(applyStarts, spend, budget), budget, cpas))
    else
      Ok(Envelope(Trunc(applyStarts), spend, cpas))
  }

  /** `int(total_as * (budget / total_spend))`: apply starts scaled down to the budget.
      A non-negative total scaled by a budget below a positive spend does not grow. */
  function ScaledDown(applyStarts: real, spend: real, budget: real): (n: int)
    requires spend != 0.0
    ensures spend > budget >= 0.0 && applyStarts >= 0.0 ==> 0 <= n <= Trunc(applyStarts)
    ensures 0.0 <= applyStarts * (budget / spend) ==> n as real <= applyStarts * (budget / spend)
  {
    var scale := budget / spend;
    if spend > budget >= 0.0 && applyStarts >= 0.0 then
      assert 0.0 <= scale < 1.0;
      assert 0.0 <= applyStarts * scale <= applyStarts;
      TruncMonotone(applyStarts * scale, applyStarts);
      Trunc(applyStarts * scale)
    else
      Trunc(applyStarts * scale)
  }

  /** Scaling down never adds apply starts, and what is left at the selection's
      average CPAS stays within the budget. */
  lemma ScaledApplyStartsNotAbove(days: seq<CpasDay>, budget: real)
    requires forall i :: 0 <= i < |days| ==> days[i].applyStarts >= 0.0 && days[i].spend >= 0.0
    requires budget >= 0.0
    ensures EnvelopeOf(days, budget).Ok?
    ensures 0 <= EnvelopeOf(days, budget).value.applyStarts <= Trunc(Sum(ApplyStarts(days)))
    ensures var e := EnvelopeOf(days, budget).value; e.applyStarts as real * e.cpas <= e.spend
  {
    var applyStarts := Sum(ApplyStarts(days));
    var spend := Sum(Spends(days));
    SumNonNegative(ApplyStarts(days));
    SumNonNegative(Spends(days));
    var e := EnvelopeOf(days, budget).value;
    assert e.spend == Min(spend, budget);
    if applyStarts > 0.0 && spend > 0.0 {
      assert e.cpas == spend / applyStarts;
      if spend > budget {
        assert e.applyStarts == ScaledDown(applyStarts, spend, budget);
        ScaledDownAtAverageCpas(applyStarts, spend, budget);
      } else {
        assert e.applyStarts == Trunc(applyStarts);
        TruncAtAverageCpas(applyStarts, spend);
      }
    } else if applyStarts > 0.0 {
      assert e.cpas == 0.0;
    } else {
      assert e.cpas == 0.0;
    }
  }

  /** Apply starts scaled down to a budget below the spend cost at most the budget at
      the average CPAS. */
  lemma ScaledDownAtAverageCpas(a: real, s: real, b: real)
    requires a > 0.0 && s > b >= 0.0
    ensures ScaledDown(a, s, b) as real * (s / a) <= b
  {
    assert 0.0 <= a * (b / s);
    AtAverageCpas(ScaledDown(a, s, b), a, s, b);
  }

  /** The truncated apply starts cost at most the spend at the average CPAS. */
  lemma TruncAtAverageCpas(a: real, s: real)
    requires a > 0.0 && s > 0.0
    ensures Trunc(a) as real * (s / a) <= s
  {
    assert a * (s / s) == a;
    AtAverageCpas(Trunc(a), a, s, s);
  }

  /** `n` apply starts, at most `a * (b / s)`, cost at most `b` at the average CPAS `s / a`. */
  lemma AtAverageCpas(n: int, a: real, s: real, b: real)
    requires a > 0.0 && s > 0.0 && b >= 0.0 && n as real <= a * (b / s)
    ensures n as real * (s / a) <= b
  {
    var c := s / a;
    assert c > 0.0;
    assert (a * (b / s)) * c == b;
  }

  /** On a well-formed table, every day's spend is its CPAS times its apply starts. */
  lemma SpendIsWeighted(days: seq<CpasDay>, lo: real, hi: real)
    requires WellFormed(days)
    requires forall i :: 0 <= i < |days| ==> CpasWithin(days[i], lo, hi)
    ensures lo * Sum(ApplyStarts(days)) <= Sum(Spends(days)) <= hi * Sum(ApplyStarts(days))
  {
    forall i | 0 <= i < |days|
      ensures Within(lo, hi, ApplyStarts(days)[i], Spends(days)[i])
    {
      DayWithin(days, i, lo, hi);
    }
    WeightedSums(ApplyStarts(days), Spends(days), lo, hi);
  }

  /** One day: its spend is its apply starts times a CPAS within the bounds. */
  lemma DayWithin(days: seq<CpasDay>, i: int, lo: real, hi: real)
    requires 0 <= i < |days| && WellFormedDay(days[i]) && CpasWithin(days[i], lo, hi)
    ensures Within(lo, hi, ApplyStarts(days)[i], Spends(days)[i])
  {
    var d := days[i];
    WeightedTerm(d.applyStarts, d.spend, d.cpas, lo, hi);
  }

  /** Apply starts `w` at a CPAS `c` within the bounds give spend `v` within them. */
  lemma WeightedTerm(w: real, v: real, c: real, lo: real, hi: real)
    requires w > 0.0 && c * w == v && lo <= c <= hi
    ensures Within(lo, hi, w, v)
  {
  }

  lemma {:induction false} ApplyStartsPositive(days: seq<CpasDay>)
    requires WellFormed(days) && days != []
    ensures Sum(ApplyStarts(days)) > 0.0
  {
    var init := days[..|days| - 1];
    assert ApplyStarts(days)[..|days| - 1] == ApplyStarts(init);
    if init != [] {
      ApplyStartsPositive(init);
    }
  }

  /** The envelope's CPAS is an average of its days' CPAS weighted by apply
      starts, so it lies between the cheapest and the dearest of them. */
  lemma EnvelopeCpasBetween(days: seq<CpasDay>, budget: real, lo: real, hi: real)
    requires WellFormed(days) && days != []
    requires forall i :: 0 <= i < |days| ==> CpasWithin(days[i], lo, hi)
    ensures EnvelopeOf(days, budget).Ok? ==> lo <= EnvelopeOf(days, budget).value.cpas <= hi
  {
    SpendIsWeighted(days, lo, hi);
    ApplyStartsPositive(days);
    var a, s := Sum(ApplyStarts(days)), Sum(Spends(days));
    AverageBetween(lo, hi, a, s);
    assert EnvelopeOf(days, budget).Ok? ==> EnvelopeOf(days, budget).value.cpas == s / a;
  }

  lemma AverageBetween(lo: real, hi: real, a: real, s: real)
    requires a > 0.0 && lo * a <= s <= hi * a
    ensures lo <= s / a <= hi
  {
    var c := s / a;
    assert c * a == s;
  }

  /** The `boundaries_for_budget` response. */
  datatype Boundaries = Boundaries(best: Envelope, worst: Envelope, durationDays: int, budget: real)

  /** The endpoint: the best side from the cheapest days, the worst side from the
      dearest, or the error either side raised, the best side's first. */
  function BoundariesForBudget(days: seq<CpasDay>, budget: real, duration: int): (r: Result<Boundaries, string>)
    ensures r.Ok? ==> r.value.best.spend <= budget && r.value.worst.spend <= budget
    ensures budget >= 0.0 ==> r.Ok?
    ensures r.Ok? ==> (Ok(r.value.best) == EnvelopeOf(Cheapest(days, duration), budget)
      && Ok(r.value.worst) == EnvelopeOf(Dearest(days, duration), budget))
  {
    match EnvelopeOf(Cheapest(days, duration), budget)
    case Err(e) => Err(e)
    case Ok(best) =>
      match EnvelopeOf(Dearest(days, duration), budget)
      case Err(e) => Err(e)
      case Ok(worst) => Ok(Boundaries(best, worst, duration, budget))
  }
}
