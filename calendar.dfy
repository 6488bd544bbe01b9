/**
 * Calendar dates as day ordinals. A `Date` counts days from 1970-01-01, which is
 * what a pandas timestamp at midnight amounts to; adding
 * `pd.Timedelta(days=i)` is adding `i`, and `(b - a).days` is `b - a`. Year,
 * month and day of month come from the proleptic Gregorian calendar.
 */
module Calendar {

  type Date = int

  datatype CivilDate = CivilDate(year: int, month: int, day: int)

  /** 2025-06-01, the first day of the reference month. */
  const JUNE_1_2025: Date := 20240

  predicate IsLeap(year: int)
  {
    year % 4 == 0 && (year % 100 != 0 || year % 400 == 0)
  }

  function DaysInYear(year: int): int
  {
    if IsLeap(year) then 366 else 365
  }

  function DaysInMonth(year: int, month: int): int
  {
    if month == 2 then (if IsLeap(year) then 29 else 28)
    else if month == 4 || month == 6 || month == 9 || month == 11 then 30
    else 31
  }

  /** The date `offset` days after January 1 of `year`, walking year by year. */
  function DateInYear(year: int, offset: int): CivilDate
    decreases if offset < 0 then 366 - offset else offset
  {
    if offset < 0 then DateInYear(year - 1, offset + DaysInYear(year - 1))
    else if offset >= DaysInYear(year) then DateInYear(year + 1, offset - DaysInYear(year))
    else DateInMonth(year, 1, offset)
  }

  /** The date `offset` days after the first of `month`, walking month by month. */
  function DateInMonth(year: int, month: int, offset: int): CivilDate
    requires offset >= 0
    decreases offset
  {
    if month < 12 && offset >= DaysInMonth(year, month) then
      DateInMonth(year, month + 1, offset - DaysInMonth(year, month))
    else CivilDate(year, month, offset + 1)
  }

  /** The proleptic Gregorian date of a day ordinal. */
  function Civil(z: Date): CivilDate
  {
    DateInYear(1970, z)
  }

  /** `d.month` */
  function Month(d: Date): int { Civil(d).month }

  /** `d.day` */
  function Day(d: Date): int { Civil(d).day }

  /** Days from January 1 of `start` to January 1 of `stop`. */
  function DaysBetween(start: int, stop: int): int
    decreases stop - start
  {
    if start >= stop then 0 else DaysInYear(start) + DaysBetween(start + 1, stop)
  }

  lemma {:induction false} SkipYears(start: int, stop: int, offset: int)
    requires start <= stop && 0 <= offset < DaysInYear(stop)
    ensures DateInYear(start, DaysBetween(start, stop) + offset) == DateInYear(stop, offset)
    decreases stop - start
  {
    if start < stop {
      SkipYears(start + 1, stop, offset);
      assert DaysBetween(start, stop) == DaysInYear(start) + DaysBetween(start + 1, stop);
      DaysBetweenNonNegative(start + 1, stop);
    }
  }

  lemma {:induction false} DaysBetweenNonNegative(start: int, stop: int)
    ensures DaysBetween(start, stop) >= 0
    decreases stop - start
  {
    if start < stop {
      DaysBetweenNonNegative(start + 1, stop);
    }
  }

  lemma DaysFrom2000To2025()
    ensures DaysBetween(2000, 2025) == 9132
  {
    assert DaysBetween(2020, 2025) == 1827;
    assert DaysBetween(2015, 2025) == 3653;
    assert DaysBetween(2010, 2025) == 5479;
    assert DaysBetween(2005, 2025) == 7305;
  }

  /** 2025-01-01 is day 20089. */
  lemma DaysTo2025()
    ensures DaysBetween(1970, 2025) == 20089
  {
    DaysFrom2000To2025();
    assert DaysBetween(1995, 2025) == 10958;
    assert DaysBetween(1990, 2025) == 12784;
    assert DaysBetween(1985, 2025) == 14610;
    assert DaysBetween(1980, 2025) == 16437;
    assert DaysBetween(1975, 2025) == 18263;
    assert DaysBetween(1970, 2025) == 20089;
  }

  /** The thirty days from 2025-06-01 are June 1 to June 30, 2025. */
  lemma June2025(k: int)
    requires 0 <= k < 30
    ensures Civil(JUNE_1_2025 + k) == CivilDate(2025, 6, k + 1)
    ensures Month(JUNE_1_2025 + k) == 6 && Day(JUNE_1_2025 + k) == k + 1
  {
    DaysTo2025();
    SkipYears(1970, 2025, 151 + k);
    assert !IsLeap(2025) && DaysInYear(2025) == 365;
    assert DateInYear(2025, 151 + k) == DateInMonth(2025, 1, 151 + k);
    assert DateInMonth(2025, 1, 151 + k) == DateInMonth(2025, 2, 120 + k);
    assert DateInMonth(2025, 2, 120 + k) == DateInMonth(2025, 3, 92 + k);
    assert DateInMonth(2025, 3, 92 + k) == DateInMonth(2025, 4, 61 + k);
    assert DateInMonth(2025, 4, 61 + k) == DateInMonth(2025, 5, 31 + k);
    assert DateInMonth(2025, 5, 31 + k) == DateInMonth(2025, 6, k);
  }
}
