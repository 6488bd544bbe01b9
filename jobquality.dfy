/**
 * The job-posting quality scorer. Each spreadsheet row answers four questions
 * about a job posting; the answers are stripped and lower-cased, earn a full,
 * half or no point each, and the points out of four become a score out of 100.
 * Rows naming no job title are skipped. The forecasting API repeats this rule
 * in three endpoints; here it is defined once.
 */
module JobQuality {
  import opened Common
  import opened Numeric
  import opened Text

  /** A row as `csv.DictReader` yields it: column names with their cells, in
      column order. A cell is `None` when the line is shorter than the header. */
  datatype CsvRow = CsvRow(cells: seq<(string, Option<string>)>)

  const JOB_TITLE := "Job Title"
  const ENGLISH_JOB_TITLE := "English Job title"
  const TITLE_APPROPRIATE := "Title Appropriate?"
  const SALARY_MENTIONED := "Salary Mentioned?"
  const PHONE_IN_JD := "Phone Number in JD"
  const JD_FORMATTED := "JD Formatted Correctly?"

  /** The cell under `key`, or `None` when the row has no such column. For a header
      that repeats, the dictionary keeps the last column's cell. */
  function Lookup(cells: seq<(string, Option<string>)>, key: string): Option<Option<string>>
  {
    if cells == [] then None
    else if cells[|cells| - 1].0 == key then Some(cells[|cells| - 1].1)
    else Lookup(cells[..|cells| - 1], key)
  }

  /** `row.get(key)`: `None` for a missing column and for a missing cell alike. */
  function GetCell(row: CsvRow, key: string): Option<string>
  {
    match Lookup(row.cells, key)
    case None => None
    case Some(cell) => cell
  }

  /** `row.get(key, default)`: the default only for a missing column. */
  function GetCellOr(row: CsvRow, key: string, default: string): Option<string>
  {
    match Lookup(row.cells, key)
    case None => Some(default)
    case Some(cell) => cell
  }

  /** Python truthiness of a cell: present and not the empty string. */
  predicate Truthy(v: Option<string>)
  {
    v.Some? && v.value != ""
  }

  /** The filter `not row.get('Job Title') and not row.get('English Job title')` keeps these rows. */
  predicate HasTitle(row: CsvRow)
  {
    Truthy(GetCell(row, JOB_TITLE)) || Truthy(GetCell(row, ENGLISH_JOB_TITLE))
  }

  /** `(row.get(column) or '').strip().lower()` */
  function Answer(row: CsvRow, column: string): string
  {
    var raw := match GetCell(row, column) case None => "" case Some(v) => v;
    Lower(Strip(raw))
  }

  /** Credit for the title and formatting questions: full for an answer starting
      with `yes`, half for one starting with `partially`. */
  function TieredCredit(answer: string): (r: real)
    ensures 0.0 <= r <= 1.0
  {
    if StartsWith(answer, "yes") then 1.0
    else if StartsWith(answer, "partially") then 0.5
    else 0.0
  }

  /** Credit for the salary question: all or nothing. */
  function SalaryCredit(answer: string): (r: real)
    ensures 0.0 <= r <= 1.0
  {
    if StartsWith(answer, "yes") then 1.0 else 0.0
  }

  /** Credit for the phone-number question: only the exact answer `no` earns it. */
  function PhoneCredit(answer: string): (r: real)
    ensures 0.0 <= r <= 1.0
  {
    if answer == "no" then 1.0 else 0.0
  }

  /** The points a row earns over its four questions. */
  function Points(row: CsvRow): (r: real)
    ensures 0.0 <= r <= 4.0
  {
    TieredCredit(Answer(row, TITLE_APPROPRIATE))
    + SalaryCredit(Answer(row, SALARY_MENTIONED))
    + PhoneCredit(Answer(row, PHONE_IN_JD))
    + TieredCredit(Answer(row, JD_FORMATTED))
  }

  /** The quality score of a row: its points out of four as a percentage. */
  function Score(row: CsvRow): (r: real)
    ensures 0.0 <= r <= 100.0
  {
    Points(row) / 4.0 * 100.0
  }

  /** Each answer earns a whole or half point, or none. */
  lemma CreditSteps(answer: string)
    ensures var t := TieredCredit(answer); t == 0.0 || t == 0.5 || t == 1.0
    ensures var s := SalaryCredit(answer); s == 0.0 || s == 1.0
    ensures var p := PhoneCredit(answer); p == 0.0 || p == 1.0
  {
  }

  /** A score in on the grid 0, 12.5, 25, ..., 100: points move in half steps from 0 to 4. */
  predicate OnScoreGrid(x: real)
  {
    x == 0.0 || x == 12.5 || x == 25.0 || x == 37.5 || x == 50.0 || x == 62.5 || x == 75.0 || x == 87.5 || x == 100.0
  }

  lemma ScoreOnGrid(row: CsvRow)
    ensures OnScoreGrid(Score(row))
  {
    var t := TieredCredit(Answer(row, TITLE_APPROPRIATE));
    var s := SalaryCredit(Answer(row, SALARY_MENTIONED));
    var ph := PhoneCredit(Answer(row, PHONE_IN_JD));
    var j := TieredCredit(Answer(row, JD_FORMATTED));
    CreditSteps(Answer(row, TITLE_APPROPRIATE));
    CreditSteps(Answer(row, SALARY_MENTIONED));
    CreditSteps(Answer(row, PHONE_IN_JD));
    CreditSteps(Answer(row, JD_FORMATTED));
    assert Score(row) == (t + s + ph + j) / 4.0 * 100.0;
    GridArithmetic(t, s, ph, j);
  }

  lemma GridArithmetic(t: real, s: real, ph: real, j: real)
    requires t == 0.0 || t == 0.5 || t == 1.0
    requires j == 0.0 || j == 0.5 || j == 1.0
    requires s == 0.0 || s == 1.0
    requires ph == 0.0 || ph == 1.0
    ensures OnScoreGrid((t + s + ph + j) / 4.0 * 100.0)
  {
  }

  /** The scoring block: `points +=` over the four answers, then `round((points / 4) * 100, 1)`.
      The rounding never changes the score. */
  method ScoreRow(row: CsvRow) returns (score: real)
    ensures score == Score(row)
    ensures 0.0 <= score <= 100.0
  {
    var points := 0.0;
    var title := Answer(row, TITLE_APPROPRIATE);
    if StartsWith(title, "yes") {
      points := points + 1.0;
    } else if StartsWith(title, "partially") {
      points := points + 0.5;
    }
    assert points == TieredCredit(title);
    var salary := Answer(row, SALARY_MENTIONED);
    if StartsWith(salary, "yes") {
      points := points + 1.0;
    }
    assert points == TieredCredit(title) + SalaryCredit(salary);
    var phone := Answer(row, PHONE_IN_JD);
    if phone == "no" {
      points := points + 1.0;
    }
    assert points == TieredCredit(title) + SalaryCredit(salary) + PhoneCredit(phone);
    var jd := Answer(row, JD_FORMATTED);
    if StartsWith(jd, "yes") {
      points := points + 1.0;
    } else if StartsWith(jd, "partially") {
      points := points + 0.5;
    }
    assert points == Points(row);
    ScoreOnGrid(row);
    ScoreGridIsRounded((points / 4.0) * 100.0);
    score := Round1((points / 4.0) * 100.0);
  }

  /** Every multiple of 12.5 from 0 to 100 has at most one decimal, so `round(…, 1)` keeps it. */
  lemma ScoreGridIsRounded(x: real)
    requires OnScoreGrid(x)
    ensures Round1(x) == x
  {
    var tenths: int := if x == 0.0 then 0 else if x == 12.5 then 125 else if x == 25.0 then 250
      else if x == 37.5 then 375 else if x == 50.0 then 500 else if x == 62.5 then 625
      else if x == 75.0 then 750 else if x == 87.5 then 875 else 1000;
    assert x * 10.0 == tenths as real;
    Round1OnGrid(x);
  }

  /** Points with a half in them. */
  predicate HasHalfPoint(p: real)
  {
    p == 0.5 || p == 1.5 || p == 2.5 || p == 3.5
  }

  /** A row's points have a half in them exactly when one, and only one, of the
      title and formatting answers earned partial credit: salary and phone
      answers only ever earn whole points. */
  lemma HalfPointOnlyFromPartialAnswers(row: CsvRow)
    ensures HasHalfPoint(Points(row))
      <==> ((TieredCredit(Answer(row, TITLE_APPROPRIATE)) == 0.5)
            != (TieredCredit(Answer(row, JD_FORMATTED)) == 0.5))
  {
    var t := TieredCredit(Answer(row, TITLE_APPROPRIATE));
    var s := SalaryCredit(Answer(row, SALARY_MENTIONED));
    var ph := PhoneCredit(Answer(row, PHONE_IN_JD));
    var j := TieredCredit(Answer(row, JD_FORMATTED));
    CreditSteps(Answer(row, TITLE_APPROPRIATE));
    CreditSteps(Answer(row, SALARY_MENTIONED));
    CreditSteps(Answer(row, PHONE_IN_JD));
    CreditSteps(Answer(row, JD_FORMATTED));
    assert Points(row) == t + s + ph + j;
    HalfPointArithmetic(t, s, ph, j);
  }

  lemma HalfPointArithmetic(t: real, s: real, ph: real, j: real)
    requires t == 0.0 || t == 0.5 || t == 1.0
    requires j == 0.0 || j == 0.5 || j == 1.0
    requires s == 0.0 || s == 1.0
    requires ph == 0.0 || ph == 1.0
    ensures HasHalfPoint(t + s + ph + j) <==> ((t == 0.5) != (j == 0.5))
  {
  }

  /** The phone answer must be exactly `no` once stripped and lower-cased: ` No `
      earns the credit and `No phone` does not. */
  lemma PhoneAnswerExamples()
    ensures PhoneCredit(Lower(Strip(" No "))) == 1.0
    ensures PhoneCredit(Lower(Strip("No phone"))) == 0.0
  {
    assert Strip(" No ") == "No" by {
      assert TrimStart(" No ") == "No ";
      assert TrimEnd("No ") == "No";
    }
    assert Lower("No") == "no";
    assert Strip("No phone") == "No phone" by {
      assert TrimStart("No phone") == "No phone";
      assert TrimEnd("No phone") == "No phone";
    }
    assert Lower("No phone") != "no";
  }

  /** The tiered answers are matched on their start: `Partially - ok` earns half. */
  lemma TieredAnswerExample()
    ensures TieredCredit(Lower(Strip("Partially - ok"))) == 0.5
  {
    assert Strip("Partially - ok") == "Partially - ok" by {
      assert TrimStart("Partially - ok") == "Partially - ok";
      assert TrimEnd("Partially - ok") == "Partially - ok";
    }
    var partial := Lower("Partially - ok");
    LowerSpec("Partially - ok");
    assert partial[0] == 'p' && partial[..3] != "yes";
    assert partial[..9] == "partially";
  }

  /** The salary answer has no partial tier: `Partially` earns nothing. */
  lemma SalaryAnswerExample()
    ensures SalaryCredit(Lower(Strip("Partially"))) == 0.0
  {
    assert Strip("Partially") == "Partially" by {
      assert TrimStart("Partially") == "Partially";
      assert TrimEnd("Partially") == "Partially";
    }
    assert Lower("Partially")[0] == 'p';
  }

  /** The rows the scoring loops keep, in their original order. */
  function Kept(rows: seq<CsvRow>): seq<CsvRow>
  {
    if rows == [] then []
    else if HasTitle(rows[|rows| - 1]) then Kept(rows[..|rows| - 1]) + [rows[|rows| - 1]]
    else Kept(rows[..|rows| - 1])
  }

  lemma KeptStep(rows: seq<CsvRow>, n: nat)
    requires n < |rows|
    ensures Kept(rows[..n + 1]) == Kept(rows[..n]) + (if HasTitle(rows[n]) then [rows[n]] else [])
  {
    assert rows[..n + 1][..n] == rows[..n];
  }

  /** Exactly the rows with a title are kept. */
  lemma {:induction false} KeptIsTitledRows(rows: seq<CsvRow>)
    ensures |Kept(rows)| <= |rows|
    ensures forall i :: 0 <= i < |Kept(rows)| ==> HasTitle(Kept(rows)[i]) && Kept(rows)[i] in rows
    ensures forall i :: 0 <= i < |rows| && HasTitle(rows[i]) ==> rows[i] in Kept(rows)
  {
    if rows != [] {
      var init := rows[..|rows| - 1];
      KeptIsTitledRows(init);
      assert forall i :: 0 <= i < |init| ==> init[i] == rows[i];
      assert forall r :: r in init ==> r in rows;
    }
  }

  /** The scores of the kept rows, in order. */
  function Scores(rows: seq<CsvRow>): (r: seq<real>)
    ensures |r| == |Kept(rows)|
    ensures forall i :: 0 <= i < |r| ==> r[i] == Score(Kept(rows)[i]) && 0.0 <= r[i] <= 100.0
  {
    seq(|Kept(rows)|, i requires 0 <= i < |Kept(rows)| => Score(Kept(rows)[i]))
  }

  /** The loop of `cpas_for_budget` that builds `jobs_quality`: one score per kept row. */
  method CollectQualityScores(rows: seq<CsvRow>) returns (scores: seq<real>)
    ensures scores == Scores(rows)
    ensures |scores| == |Kept(rows)|
    ensures forall i :: 0 <= i < |scores| ==> scores[i] == Score(Kept(rows)[i])
    ensures forall i :: 0 <= i < |scores| ==> 0.0 <= scores[i] <= 100.0
  {
    scores := [];
    var n := 0;
    while n < |rows|
      invariant 0 <= n <= |rows|
      invariant |scores| == |Kept(rows[..n])|
      invariant forall i :: 0 <= i < |scores| ==> scores[i] == Score(Kept(rows[..n])[i])
    {
      KeptStep(rows, n);
      var row := rows[n];
      if HasTitle(row) {
        var score := ScoreRow(row);
        scores := scores + [score];
      }
      n := n + 1;
    }
    assert rows[..n] == rows;
    assert scores == Scores(rows);
  }

  /** `sum(jobs_quality) / len(jobs_quality) if jobs_quality else 75`. */
  function AverageQualityOrDefault(scores: seq<real>): (r: real)
    ensures scores == [] ==> r == 75.0
    ensures scores != [] ==> r * |scores| as real == Sum(scores)
  {
    if scores == [] then 75.0 else Sum(scores) / |scores| as real
  }

  /** `sum(scores) / len(jobs)`, absent when there are no jobs (the endpoint then reports an error). */
  function AverageQuality(scores: seq<real>): (r: Option<real>)
    ensures r.None? <==> scores == []
    ensures r.Some? ==> r.value * |scores| as real == Sum(scores)
  {
    if scores == [] then None else Some(Sum(scores) / |scores| as real)
  }

  /** An average of scores, or the default 75, is itself a score between 0 and 100. */
  lemma AverageQualityInRange(scores: seq<real>)
    requires forall i :: 0 <= i < |scores| ==> 0.0 <= scores[i] <= 100.0
    ensures 0.0 <= AverageQualityOrDefault(scores) <= 100.0
    ensures AverageQuality(scores).Some? ==> 0.0 <= AverageQuality(scores).value <= 100.0
  {
    if scores != [] {
      MeanBounds(scores, 0.0, 100.0);
    }
  }

  /** One entry of the `job_quality_scores` response. */
  datatype JobReport = JobReport(
    jobTitle: Option<string>,
    englishJobTitle: Option<string>,
    station: Option<string>,
    dsp: Option<string>,
    reqId: Option<string>,
    titleAppropriate: Option<string>,
    salaryMentioned: Option<string>,
    phoneInJd: Option<string>,
    jdFormatted: Option<string>,
    score: real,
    jobUrl: Option<string>)

  /** `list(row.values())[3] if len(row) > 3 else ''`: the fourth column, whose header is empty. */
  function RequisitionId(row: CsvRow): Option<string>
  {
    if |row.cells| > 3 then row.cells[3].1 else Some("")
  }

  function Report(row: CsvRow): (r: JobReport)
    ensures r.score == Score(row)
  {
    JobReport(
      GetCellOr(row, JOB_TITLE, ""), GetCellOr(row, ENGLISH_JOB_TITLE, ""),
      GetCellOr(row, "Station", ""), GetCellOr(row, "DSP", ""), RequisitionId(row),
      GetCellOr(row, TITLE_APPROPRIATE, ""), GetCellOr(row, SALARY_MENTIONED, ""),
      GetCellOr(row, PHONE_IN_JD, ""), GetCellOr(row, JD_FORMATTED, ""),
      Score(row), GetCellOr(row, "JOB_URL", ""))
  }

  /** The `job_quality_scores` endpoint: one report per kept row, in row order. */
  method JobQualityScores(rows: seq<CsvRow>) returns (jobs: seq<JobReport>)
    ensures |jobs| == |Kept(rows)|
    ensures forall i :: 0 <= i < |jobs| ==> jobs[i] == Report(Kept(rows)[i])
    ensures forall i :: 0 <= i < |jobs| ==> 0.0 <= jobs[i].score <= 100.0
  {
    jobs := [];
    var n := 0;
    while n < |rows|
      invariant 0 <= n <= |rows|
      invariant |jobs| == |Kept(rows[..n])|
      invariant forall i :: 0 <= i < |jobs| ==> jobs[i] == Report(Kept(rows[..n])[i])
    {
      KeptStep(rows, n);
      var row := rows[n];
      if HasTitle(row) {
        var score := ScoreRow(row);
        jobs := jobs + [JobReport(
          GetCellOr(row, JOB_TITLE, ""), GetCellOr(row, ENGLISH_JOB_TITLE, ""),
          GetCellOr(row, "Station", ""), GetCellOr(row, "DSP", ""), RequisitionId(row),
          GetCellOr(row, TITLE_APPROPRIATE, ""), GetCellOr(row, SALARY_MENTIONED, ""),
          GetCellOr(row, PHONE_IN_JD, ""), GetCellOr(row, JD_FORMATTED, ""),
          score, GetCellOr(row, "JOB_URL", ""))];
      }
      n := n + 1;
    }
    assert rows[..n] == rows;
  }
}
