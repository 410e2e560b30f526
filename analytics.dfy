/**
 * The analytics service of the backend (backend/app/services/analytics_service.py):
 * a summary of one user's routine and productivity records in a date window
 * (averages, best and worst day, a first-half / second-half trend), and the
 * chart points that merge both tables by date.
 *
 * Rows are the typed records of `Records`; the clock is the parameter
 * `today` and the calendar step "30 days before" the parameter `monthBefore`.
 * Averages are exact rationals: the final `round(..., 2)` is not modelled.
 */
module Analytics {
  import opened Common
  import opened Records

  // ------------------------------------------------------------------
  // The date window and the two queries
  // ------------------------------------------------------------------

  /** The window used: `end_date` defaults to today, `start_date` to 30 days before the end. */
  function Window(startDate: Option<string>, endDate: Option<string>, today: string,
                  monthBefore: string -> string): (string, string)
  {
    var end := if endDate.Some? then endDate.value else today;
    var start := if startDate.Some? then startDate.value else monthBefore(end);
    (start, end)
  }

  /** `.gte("date", start).lte("date", end)` on ISO dates. */
  predicate InWindow(date: string, w: (string, string)) {
    LessEq(w.0, date) && LessEq(date, w.1)
  }

  /** The elements of `xs` that satisfy `p`, in order. */
  function Keep<T>(xs: seq<T>, p: T -> bool): (r: seq<T>)
    ensures |r| <= |xs|
  {
    if xs == [] then [] else (if p(xs[0]) then [xs[0]] else []) + Keep(xs[1..], p)
  }

  lemma {:induction false} KeepMembers<T>(xs: seq<T>, p: T -> bool)
    ensures forall x :: x in Keep(xs, p) <==> x in xs && p(x)
  {
    if xs != [] {
      KeepMembers(xs[1..], p);
      assert xs == [xs[0]] + xs[1..];
    }
  }

  /** This user's routines in the window, in table order. */
  function UserRoutines(table: seq<Routine>, userId: string, w: (string, string)): seq<Routine> {
    Keep(table, (r: Routine) => r.userId == userId && InWindow(r.date, w))
  }

  /** This user's productivity entries in the window, `order("date")`. */
  function UserProductivity(table: seq<Productivity>, userId: string, w: (string, string)): seq<Productivity> {
    SortBy(Keep(table, (p: Productivity) => p.userId == userId && InWindow(p.date, w)), ProductivityDate, false)
  }

  /**
   * The summary reads exactly this user's rows whose date lies in the window;
   * the entries come back in ascending date order, each as often as in the table.
   */
  lemma UserRowsSpec(routines: seq<Routine>, productivity: seq<Productivity>, userId: string, w: (string, string))
    ensures forall r :: r in UserRoutines(routines, userId, w) <==> r in routines && r.userId == userId && InWindow(r.date, w)
    ensures forall p :: p in UserProductivity(productivity, userId, w) <==>
                        p in productivity && p.userId == userId && InWindow(p.date, w)
    ensures SortedBy(UserProductivity(productivity, userId, w), ProductivityDate, false)
    ensures multiset(UserProductivity(productivity, userId, w)) ==
            multiset(Keep(productivity, (p: Productivity) => p.userId == userId && InWindow(p.date, w)))
  {
    KeepMembers(routines, (r: Routine) => r.userId == userId && InWindow(r.date, w));
    var keep := (p: Productivity) => p.userId == userId && InWindow(p.date, w);
    KeepMembers(productivity, keep);
    SortBySorted(Keep(productivity, keep), ProductivityDate, false);
    forall p ensures p in UserProductivity(productivity, userId, w) <==> p in Keep(productivity, keep) {
      assert p in UserProductivity(productivity, userId, w) <==> p in multiset(UserProductivity(productivity, userId, w));
    }
  }

  // ------------------------------------------------------------------
  // Sums, means, best and worst
  // ------------------------------------------------------------------

  function SleepTotal(rs: seq<Routine>): real {
    if rs == [] then 0.0 else SleepTotal(rs[..|rs| - 1]) + rs[|rs| - 1].sleepHours
  }

  function ExerciseTotal(rs: seq<Routine>): int {
    if rs == [] then 0 else ExerciseTotal(rs[..|rs| - 1]) + rs[|rs| - 1].exerciseMinutes
  }

  function MoodTotal(rs: seq<Routine>): int {
    if rs == [] then 0 else MoodTotal(rs[..|rs| - 1]) + rs[|rs| - 1].morningMood
  }

  function ScoreTotal(ps: seq<Productivity>): int {
    if ps == [] then 0 else ScoreTotal(ps[..|ps| - 1]) + ps[|ps| - 1].productivityScore
  }

  function EnergyTotal(ps: seq<Productivity>): int {
    if ps == [] then 0 else EnergyTotal(ps[..|ps| - 1]) + ps[|ps| - 1].energyLevel
  }

  /** `sum / len` guarded by `if rows:`; the average stays 0 for no rows. */
  function Mean(total: real, n: nat): real {
    if n == 0 then 0.0 else total / (n as real)
  }

  /** `max(productivity, key=score)`: the first entry with the highest score. */
  function BestIndex(ps: seq<Productivity>): (i: nat)
    requires |ps| > 0
    ensures i < |ps|
    ensures forall j :: 0 <= j < |ps| ==> ps[j].productivityScore <= ps[i].productivityScore
    ensures forall j :: 0 <= j < i ==> ps[j].productivityScore < ps[i].productivityScore
  {
    if |ps| == 1 then 0
    else
      var i := BestIndex(ps[..|ps| - 1]);
      if ps[|ps| - 1].productivityScore > ps[i].productivityScore then |ps| - 1 else i
  }

  /** `min(productivity, key=score)`: the first entry with the lowest score. */
  function WorstIndex(ps: seq<Productivity>): (i: nat)
    requires |ps| > 0
    ensures i < |ps|
    ensures forall j :: 0 <= j < |ps| ==> ps[i].productivityScore <= ps[j].productivityScore
    ensures forall j :: 0 <= j < i ==> ps[i].productivityScore < ps[j].productivityScore
  {
    if |ps| == 1 then 0
    else
      var i := WorstIndex(ps[..|ps| - 1]);
      if ps[|ps| - 1].productivityScore < ps[i].productivityScore then |ps| - 1 else i
  }

  // ------------------------------------------------------------------
  // The trend
  // ------------------------------------------------------------------

  datatype Trend = Up | Down | Stable

  /** The mean score of a non-empty run of entries. */
  function MeanScore(ps: seq<Productivity>): real {
    Mean(ScoreTotal(ps) as real, |ps|)
  }

  /**
   * Fewer than 4 entries are `stable`; otherwise the second half's mean is
   * compared with 1.1 and 0.9 times the first half's, the halves split at
   * `n // 2`.
   */
  function ProductivityTrend(ps: seq<Productivity>): Trend {
    if |ps| < 4 then Stable
    else
      var mid := |ps| / 2;
      var first := MeanScore(ps[..mid]);
      var second := MeanScore(ps[mid..]);
      if second > first * (11.0 / 10.0) then Up
      else if second < first * (9.0 / 10.0) then Down
      else Stable
  }

  // ------------------------------------------------------------------
  // The summary
  // ------------------------------------------------------------------

  /** `AnalyticsSummary` before rounding. */
  datatype Summary = Summary(
    avgProductivity: real, avgSleep: real, avgExercise: real, avgMood: real, avgEnergy: real,
    totalEntries: nat, bestDay: Option<string>, worstDay: Option<string>, trend: Trend)

  function SummaryOf(rs: seq<Routine>, ps: seq<Productivity>): Summary {
    Summary(
      MeanScore(ps),
      Mean(SleepTotal(rs), |rs|),
      Mean(ExerciseTotal(rs) as real, |rs|),
      Mean(MoodTotal(rs) as real, |rs|),
      Mean(EnergyTotal(ps) as real, |ps|),
      |ps|,
      if ps == [] then None else Some(ps[BestIndex(ps)].date),
      if ps == [] then None else Some(ps[WorstIndex(ps)].date),
      ProductivityTrend(ps))
  }

  /** `get_summary`: the summary of this user's rows in the (defaulted) window. */
  function GetSummary(routines: seq<Routine>, productivity: seq<Productivity>, userId: string,
                      startDate: Option<string>, endDate: Option<string>, today: string,
                      monthBefore: string -> string): Summary
  {
    var w := Window(startDate, endDate, today, monthBefore);
    SummaryOf(UserRoutines(routines, userId, w), UserProductivity(productivity, userId, w))
  }

  /** With no dates given the window is the 30 days up to today, ends included. */
  lemma DefaultWindow(today: string, monthBefore: string -> string, date: string)
    ensures InWindow(date, Window(None, None, today, monthBefore)) <==>
              LessEq(monthBefore(today), date) && LessEq(date, today)
    ensures forall e :: Window(None, Some(e), today, monthBefore) == (monthBefore(e), e)
  {
  }

  /** `total_entries` counts exactly this user's productivity entries in the window. */
  lemma TotalEntriesCount(routines: seq<Routine>, productivity: seq<Productivity>, userId: string,
                          startDate: Option<string>, endDate: Option<string>, today: string,
                          monthBefore: string -> string)
    ensures var w := Window(startDate, endDate, today, monthBefore);
            GetSummary(routines, productivity, userId, startDate, endDate, today, monthBefore).totalEntries ==
              |Keep(productivity, (p: Productivity) => p.userId == userId && InWindow(p.date, w))|
  {
    var w := Window(startDate, endDate, today, monthBefore);
    SortByLength(Keep(productivity, (p: Productivity) => p.userId == userId && InWindow(p.date, w)),
                 ProductivityDate, false);
  }

  /** With no rows every average is 0; with no entries there is no best or worst day and the trend is stable. */
  lemma SummaryOfEmpty(rs: seq<Routine>, ps: seq<Productivity>)
    ensures rs == [] ==> var s := SummaryOf(rs, ps); s.avgSleep == 0.0 && s.avgExercise == 0.0 && s.avgMood == 0.0
    ensures ps == [] ==> var s := SummaryOf(rs, ps);
              s.avgProductivity == 0.0 && s.avgEnergy == 0.0 && s.totalEntries == 0 &&
              s.bestDay.None? && s.worstDay.None? && s.trend == Stable
  {
  }

  /**
   * The best day is the date of an entry with the highest score and no
   * earlier entry reaches that score; the worst day likewise for the lowest.
   */
  lemma BestAndWorstDay(rs: seq<Routine>, ps: seq<Productivity>)
    requires ps != []
    ensures exists i :: 0 <= i < |ps| && SummaryOf(rs, ps).bestDay == Some(ps[i].date) &&
              (forall j :: 0 <= j < |ps| ==> ps[j].productivityScore <= ps[i].productivityScore) &&
              (forall j :: 0 <= j < i ==> ps[j].productivityScore < ps[i].productivityScore)
    ensures exists i :: 0 <= i < |ps| && SummaryOf(rs, ps).worstDay == Some(ps[i].date) &&
              (forall j :: 0 <= j < |ps| ==> ps[i].productivityScore <= ps[j].productivityScore) &&
              (forall j :: 0 <= j < i ==> ps[i].productivityScore < ps[j].productivityScore)
  {
    var b := BestIndex(ps);
    var w := WorstIndex(ps);
    assert SummaryOf(rs, ps).bestDay == Some(ps[b].date);
    assert SummaryOf(rs, ps).worstDay == Some(ps[w].date);
  }

  /** Bounds on every score bound the total. */
  lemma {:induction false} ScoreTotalBounds(ps: seq<Productivity>, lo: int, hi: int)
    requires forall j :: 0 <= j < |ps| ==> lo <= ps[j].productivityScore <= hi
    ensures lo * |ps| <= ScoreTotal(ps) <= hi * |ps|
  {
    if ps != [] {
      ScoreTotalBounds(ps[..|ps| - 1], lo, hi);
    }
  }

  /** The mean of scores between `lo` and `hi` is between them too. */
  lemma MeanScoreBounds(ps: seq<Productivity>, lo: int, hi: int)
    requires ps != []
    requires forall j :: 0 <= j < |ps| ==> lo <= ps[j].productivityScore <= hi
    ensures lo as real <= MeanScore(ps) <= hi as real
  {
    ScoreTotalBounds(ps, lo, hi);
    var n := |ps| as real;
    assert (lo as real) * n <= ScoreTotal(ps) as real <= (hi as real) * n;
  }

  /** The average productivity lies between the lowest and the highest score. */
  lemma AverageBetweenWorstAndBest(rs: seq<Routine>, ps: seq<Productivity>)
    requires ps != []
    ensures var s := SummaryOf(rs, ps);
            ps[WorstIndex(ps)].productivityScore as real <= s.avgProductivity <= ps[BestIndex(ps)].productivityScore as real
  {
    MeanScoreBounds(ps, ps[WorstIndex(ps)].productivityScore, ps[BestIndex(ps)].productivityScore);
  }

  /** The trend of fewer than four entries is stable. */
  lemma TrendOfFewEntries(ps: seq<Productivity>)
    requires |ps| < 4
    ensures ProductivityTrend(ps) == Stable
  {
  }

  /**
   * Scores of at most `c` in the first half and above `1.1 * c` in the second
   * half make the trend `up`.
   */
  lemma TrendUpWhenSecondHalfHigher(ps: seq<Productivity>, c: int)
    requires |ps| >= 4 && c >= 0
    requires forall j :: 0 <= j < |ps| / 2 ==> ps[j].productivityScore <= c
    requires forall j :: |ps| / 2 <= j < |ps| ==> ps[j].productivityScore as real > (c as real) * (11.0 / 10.0)
    ensures ProductivityTrend(ps) == Up
  {
    var mid := |ps| / 2;
    var a := ps[..mid];
    var b := ps[mid..];
    var lowest := b[WorstIndex(b)].productivityScore;
    MeanScoreBounds(a, ScoreOf(a[WorstIndex(a)]), c);
    MeanScoreBounds(b, lowest, ScoreOf(b[BestIndex(b)]));
    assert ps[mid + WorstIndex(b)] == b[WorstIndex(b)];
    assert MeanScore(a) * (11.0 / 10.0) <= (c as real) * (11.0 / 10.0);
  }

  /**
   * Scores of at least `c` in the first half and below `0.9 * c` in the second
   * half make the trend `down`.
   */
  lemma TrendDownWhenSecondHalfLower(ps: seq<Productivity>, c: int)
    requires |ps| >= 4 && c >= 0
    requires forall j :: 0 <= j < |ps| / 2 ==> ps[j].productivityScore >= c
    requires forall j :: |ps| / 2 <= j < |ps| ==> (ps[j].productivityScore as real) < (c as real) * (9.0 / 10.0)
    ensures ProductivityTrend(ps) == Down
  {
    var mid := |ps| / 2;
    var a := ps[..mid];
    var b := ps[mid..];
    var highest := b[BestIndex(b)].productivityScore;
    MeanScoreBounds(a, c, ScoreOf(a[BestIndex(a)]));
    MeanScoreBounds(b, ScoreOf(b[WorstIndex(b)]), highest);
    assert ps[mid + BestIndex(b)] == b[BestIndex(b)];
    assert MeanScore(a) * (9.0 / 10.0) >= (c as real) * (9.0 / 10.0);
    assert MeanScore(a) * (11.0 / 10.0) >= MeanScore(a) * (9.0 / 10.0);
  }

  function ScoreOf(p: Productivity): int { p.productivityScore }

  /** Constant positive scores are stable. */
  lemma TrendOfConstantScores(ps: seq<Productivity>, c: int)
    requires c > 0
    requires forall j :: 0 <= j < |ps| ==> ps[j].productivityScore == c
    ensures ProductivityTrend(ps) == Stable
  {
    if |ps| >= 4 {
      var mid := |ps| / 2;
      MeanScoreBounds(ps[..mid], c, c);
      MeanScoreBounds(ps[mid..], c, c);
    }
  }

  // ------------------------------------------------------------------
  // Chart data
  // ------------------------------------------------------------------

  /** `ChartDataPoint`: `None` where that day has no row in the table. */
  datatype ChartPoint = ChartPoint(
    date: string, productivityScore: Option<int>, energyLevel: Option<int>, morningMood: Option<int>,
    sleepHours: Option<real>, exerciseMinutes: Option<int>, meditationMinutes: Option<int>)

  /** `sorted(set(routines_by_date) | set(productivity_by_date))`. */
  function ChartDates(rs: seq<Routine>, ps: seq<Productivity>): seq<string> {
    SortedSet(Keys(rs, RoutineDate) + Keys(ps, ProductivityDate))
  }

  /** The point of one date: the fields of the last row of that date in each table (the dict keeps the last). */
  function PointFor(d: string, rs: seq<Routine>, ps: seq<Productivity>): ChartPoint {
    var r := LastWithKey(rs, RoutineDate, d);
    var p := LastWithKey(ps, ProductivityDate, d);
    ChartPoint(d,
      if p.Some? then Some(p.value.productivityScore) else None,
      if p.Some? then Some(p.value.energyLevel) else None,
      if r.Some? then Some(r.value.morningMood) else None,
      if r.Some? then Some(r.value.sleepHours) else None,
      if r.Some? then Some(r.value.exerciseMinutes) else None,
      if r.Some? then Some(r.value.meditationMinutes) else None)
  }

  /** The append loop of `get_chart_data`: one point per chart date, in order. */
  method ChartData(rs: seq<Routine>, ps: seq<Productivity>) returns (chart: seq<ChartPoint>)
    ensures |chart| == |ChartDates(rs, ps)|
    ensures forall k :: 0 <= k < |chart| ==> chart[k] == PointFor(ChartDates(rs, ps)[k], rs, ps)
  {
    var dates := ChartDates(rs, ps);
    chart := [];
    for i := 0 to |dates|
      invariant |chart| == i
      invariant forall k :: 0 <= k < i ==> chart[k] == PointFor(dates[k], rs, ps)
    {
      chart := chart + [PointFor(dates[i], rs, ps)];
    }
  }

  /** `get_chart_data`: both queries are ordered by date, then merged. */
  method GetChartData(routines: seq<Routine>, productivity: seq<Productivity>, userId: string,
                      startDate: Option<string>, endDate: Option<string>, today: string,
                      monthBefore: string -> string)
    returns (chart: seq<ChartPoint>)
    ensures var w := Window(startDate, endDate, today, monthBefore);
            var rs := SortBy(UserRoutines(routines, userId, w), RoutineDate, false);
            var ps := UserProductivity(productivity, userId, w);
            |chart| == |ChartDates(rs, ps)| &&
            forall k :: 0 <= k < |chart| ==> chart[k] == PointFor(ChartDates(rs, ps)[k], rs, ps)
  {
    var w := Window(startDate, endDate, today, monthBefore);
    var rs := SortBy(UserRoutines(routines, userId, w), RoutineDate, false);
    var ps := UserProductivity(productivity, userId, w);
    chart := ChartData(rs, ps);
  }

  /** The chart dates are strictly increasing and are exactly the dates found in either table. */
  lemma ChartDatesSpec(rs: seq<Routine>, ps: seq<Productivity>)
    ensures StrictlyIncreasing(ChartDates(rs, ps))
    ensures forall d :: d in ChartDates(rs, ps) <==>
              (exists i :: 0 <= i < |rs| && rs[i].date == d) || (exists j :: 0 <= j < |ps| && ps[j].date == d)
  {
    var ks := Keys(rs, RoutineDate) + Keys(ps, ProductivityDate);
    SortedSetProperties(ks);
    forall d ensures d in ks <==>
                     (exists i :: 0 <= i < |rs| && rs[i].date == d) || (exists j :: 0 <= j < |ps| && ps[j].date == d)
    {
      if d in ks {
        var m :| 0 <= m < |ks| && ks[m] == d;
        if m < |rs| {
          assert rs[m].date == d;
        } else {
          assert ps[m - |rs|].date == d;
        }
      }
      if exists i :: 0 <= i < |rs| && rs[i].date == d {
        var i :| 0 <= i < |rs| && rs[i].date == d;
        assert ks[i] == d;
      }
      if exists j :: 0 <= j < |ps| && ps[j].date == d {
        var j :| 0 <= j < |ps| && ps[j].date == d;
        assert ks[|rs| + j] == d;
      }
    }
  }

  /**
   * A point's productivity fields are present iff that date has an entry, and
   * then come from the last entry of that date; its routine fields likewise.
   */
  lemma PointSources(d: string, rs: seq<Routine>, ps: seq<Productivity>)
    ensures var pt := PointFor(d, rs, ps);
            pt.date == d &&
            (pt.productivityScore.Some? <==> exists j :: 0 <= j < |ps| && ps[j].date == d) &&
            (pt.morningMood.Some? <==> exists i :: 0 <= i < |rs| && rs[i].date == d) &&
            (pt.productivityScore.Some? <==> pt.energyLevel.Some?) &&
            (pt.morningMood.Some? <==> pt.sleepHours.Some? && pt.exerciseMinutes.Some? && pt.meditationMinutes.Some?)
    ensures var pt := PointFor(d, rs, ps);
            pt.productivityScore.Some? ==>
              exists j :: 0 <= j < |ps| && ps[j].date == d &&
                          pt.productivityScore == Some(ps[j].productivityScore) && pt.energyLevel == Some(ps[j].energyLevel) &&
                          forall j' :: j < j' < |ps| ==> ps[j'].date != d
    ensures var pt := PointFor(d, rs, ps);
            pt.morningMood.Some? ==>
              exists i :: 0 <= i < |rs| && rs[i].date == d &&
                          pt.morningMood == Some(rs[i].morningMood) && pt.sleepHours == Some(rs[i].sleepHours) &&
                          forall i' :: i < i' < |rs| ==> rs[i'].date != d
  {
    var r := LastWithKey(rs, RoutineDate, d);
    var p := LastWithKey(ps, ProductivityDate, d);
    if p.Some? {
      var j :| 0 <= j < |ps| && ps[j] == p.value && ProductivityDate(ps[j]) == d &&
               forall j' :: j < j' < |ps| ==> ProductivityDate(ps[j']) != d;
    } else {
      assert forall j :: 0 <= j < |ps| ==> ProductivityDate(ps[j]) != d;
    }
    if r.Some? {
      var i :| 0 <= i < |rs| && rs[i] == r.value && RoutineDate(rs[i]) == d &&
               forall i' :: i < i' < |rs| ==> RoutineDate(rs[i']) != d;
    } else {
      assert forall i :: 0 <= i < |rs| ==> RoutineDate(rs[i]) != d;
    }
  }

  /** Every chart point has data from at least one of the two tables. */
  lemma PointsAreNotEmpty(rs: seq<Routine>, ps: seq<Productivity>, k: int)
    requires 0 <= k < |ChartDates(rs, ps)|
    ensures var pt := PointFor(ChartDates(rs, ps)[k], rs, ps);
            pt.productivityScore.Some? || pt.morningMood.Some?
  {
    var d := ChartDates(rs, ps)[k];
    ChartDatesSpec(rs, ps);
    assert d in ChartDates(rs, ps);
    PointSources(d, rs, ps);
  }
}
