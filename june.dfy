/**
 * The `june_daily` table both forecasting endpoints read: one row per June day
 * with spend and apply starts summed over all jobs.
 */
module June {
  import opened Common
  import Calendar

  datatype DayTotals = DayTotals(date: Calendar.Date, spend: real, applyStarts: real)

  /** The table's `CPAS` column: spend over apply starts, NaN (here `None`) on a
      day without apply starts, whose zero was replaced by NaN. */
  function Cpas(d: DayTotals): (r: Option<real>)
    ensures r.None? <==> d.applyStarts == 0.0
    ensures r.Some? ==> Explains(r.value, d)
  {
    if d.applyStarts == 0.0 then None else Some(d.spend / d.applyStarts)
  }

  /** A CPAS that, times the day's apply starts, gives the day's spend. */
  predicate Explains(cpas: real, d: DayTotals)
  {
    cpas * d.applyStarts == d.spend
  }

  /** `.loc[date]` on the table indexed by date: the row of that day, if any. */
  function Find(rows: seq<DayTotals>, date: Calendar.Date): (r: Option<DayTotals>)
    ensures r.Some? ==> r.value in rows && r.value.date == date
    ensures r.None? ==> forall i :: 0 <= i < |rows| ==> rows[i].date != date
  {
    if rows == [] then None
    else if rows[0].date == date then Some(rows[0])
    else Find(rows[1..], date)
  }
}
