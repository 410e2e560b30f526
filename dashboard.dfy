/**
 * The derivations the dashboard page makes from the fetched records
 * (frontend/src/app/dashboard/page.tsx): the 12-hour time formatter, the
 * merged productivity chart, the routine chart, the four-bucket sleep
 * histogram, the five most recent entries, and the banner / button flags.
 *
 * The record lists are the `data.data` arrays of the routine and productivity
 * slots, taken as `[]` when a slot holds no data. `formatDate` (a locale
 * formatter over `Date`) is a parameter.
 */
module Dashboard {
  import opened Common
  import opened Records

  // ------------------------------------------------------------------
  // formatTime
  // ------------------------------------------------------------------

  /** JavaScript `a % b` for `b > 0`: the remainder takes the sign of `a`. */
  function JsRem(a: int, b: int): (r: int)
    requires b > 0
    ensures -b < r < b
    ensures a >= 0 ==> r == a % b
    ensures a < 0 ==> r <= 0
  {
    if a >= 0 then a % b else -((-a) % b)
  }

  /** `h % 12 || 12`, where a NaN hour (`None`) is falsy and gives 12. */
  function DisplayHour(h: Option<int>): (d: int)
    ensures h.Some? && h.value >= 0 ==> 1 <= d <= 12 && d % 12 == h.value % 12
    ensures h.None? ==> d == 12
  {
    if h.None? || JsRem(h.value, 12) == 0 then 12 else JsRem(h.value, 12)
  }

  /**
   * `formatTime`: `"-"` for the empty string; otherwise the hour before the
   * first `:` is read with `parseInt`, and the text after it is copied as the
   * minutes (JavaScript prints a missing part as `undefined`).
   */
  function FormatTime(timeStr: string): string {
    if timeStr == "" then "-"
    else
      var parts := Split(timeStr, ':');
      var minutes := if |parts| >= 2 then parts[1] else "undefined";
      var h := ParseInt(parts[0]);
      var ampm := if h.Some? && h.value >= 12 then "PM" else "AM";
      IntToString(DisplayHour(h)) + ":" + minutes + " " + ampm
  }

  lemma FormatTimeEmpty()
    ensures FormatTime("") == "-"
  {
  }

  /** On `HH:MM` text the hour is shown on the 12-hour clock and the minutes are copied. */
  lemma FormatTimeOfClock(h: nat, minutes: string)
    requires h < 100 && ':' !in minutes
    ensures FormatTime(Pad2(h) + ":" + minutes) ==
            IntToString(if h % 12 == 0 then 12 else h % 12) + ":" + minutes + " " +
            (if h >= 12 then "PM" else "AM")
  {
    var hh := Pad2(h);
    assert ':' !in hh by {
      assert forall k :: 0 <= k < |NatToString(h)| ==> IsDigit(NatToString(h)[k]);
      if h < 10 {
        assert hh == "0" + NatToString(h);
      }
    }
    SplitAt(hh, ':', minutes);
    SplitNoSep(minutes, ':');
    assert hh + ":" + minutes == hh + [':'] + minutes;
    ParseIntPad2(h);
    assert Split(hh + ":" + minutes, ':') == [hh, minutes];
  }

  /** `FormatTimeOfClock` with the expected text given outright. */
  lemma FormatTimeClockCase(h: nat, minutes: string, expected: string)
    requires h < 100 && ':' !in minutes
    requires expected == IntToString(if h % 12 == 0 then 12 else h % 12) + ":" + minutes + " " +
                         (if h >= 12 then "PM" else "AM")
    ensures FormatTime(Pad2(h) + ":" + minutes) == expected
  {
    FormatTimeOfClock(h, minutes);
  }

  lemma FormatTimeMorning()
    ensures FormatTime(Pad2(6) + ":" + "30") == "6:30 AM"
  {
    assert IntToString(6 % 12) == "6";
    FormatTimeClockCase(6, "30", "6:30 AM");
  }

  lemma FormatTimeAfternoon()
    ensures FormatTime(Pad2(14) + ":" + "45") == "2:45 PM"
  {
    assert IntToString(14 % 12) == "2";
    FormatTimeClockCase(14, "45", "2:45 PM");
  }

  lemma FormatTimeNoon()
    ensures FormatTime(Pad2(12) + ":" + "00") == "12:00 PM"
  {
    assert IntToString(12) == "12";
    FormatTimeClockCase(12, "00", "12:00 PM");
  }

  lemma FormatTimeMidnight()
    ensures FormatTime(Pad2(0) + ":" + "00") == "12:00 AM"
  {
    assert IntToString(12) == "12";
    FormatTimeClockCase(0, "00", "12:00 AM");
  }

  lemma FormatTimePaddedMinutes()
    ensures FormatTime(Pad2(9) + ":" + "05") == "9:05 AM"
  {
    assert IntToString(9 % 12) == "9";
    FormatTimeClockCase(9, "05", "9:05 AM");
  }

  lemma ClockTexts()
    ensures Pad2(6) + ":" + "30" == "06:30"
    ensures Pad2(14) + ":" + "45" == "14:45"
    ensures Pad2(12) + ":" + "00" == "12:00"
    ensures Pad2(0) + ":" + "00" == "00:00"
    ensures Pad2(9) + ":" + "05" == "09:05"
  {
    assert Pad2(6) == "06";
    assert Pad2(14) == "14";
    assert Pad2(12) == "12";
    assert Pad2(0) == "00";
    assert Pad2(9) == "09";
  }

  /** The cases exercised for `formatTime` in the frontend's utility tests. */
  lemma FormatTimeExamples()
    ensures FormatTime("06:30") == "6:30 AM"
    ensures FormatTime("14:45") == "2:45 PM"
    ensures FormatTime("12:00") == "12:00 PM"
    ensures FormatTime("00:00") == "12:00 AM"
    ensures FormatTime("09:05") == "9:05 AM"
  {
    FormatTimeMorning();
    FormatTimeAfternoon();
    FormatTimeNoon();
    FormatTimeMidnight();
    FormatTimePaddedMinutes();
    ClockTexts();
  }

  // ------------------------------------------------------------------
  // productivityChartData: outer join by raw date, sorted by label
  // ------------------------------------------------------------------

  /** A point of the productivity chart; `None` is a property absent from the object. */
  datatype ChartRow = ChartRow(
    dateLabel: string,
    productivityScore: Option<int>,
    energyLevel: Option<int>,
    morningMood: Option<int>)

  function ChartLabel(c: ChartRow): string { c.dateLabel }

  const DemoProductivityChart: seq<ChartRow> := [
    ChartRow("Jan 1", Some(7), Some(6), Some(7)),
    ChartRow("Jan 2", Some(8), Some(7), Some(8)),
    ChartRow("Jan 3", Some(6), Some(5), Some(6)),
    ChartRow("Jan 4", Some(9), Some(8), Some(8)),
    ChartRow("Jan 5", Some(7), Some(7), Some(7)),
    ChartRow("Jan 6", Some(8), Some(8), Some(9)),
    ChartRow("Jan 7", Some(9), Some(9), Some(8))
  ]

  /**
   * The chart point for raw date `d` once both lists are merged: the label is
   * the formatted date, the mood comes from the last routine of that date and
   * the score and energy from the last productivity entry of that date.
   */
  function MergedRow(d: string, rs: seq<Routine>, ps: seq<Productivity>,
                     formatDate: string -> string): ChartRow
  {
    var r := LastWithKey(rs, RoutineDate, d);
    var p := LastWithKey(ps, ProductivityDate, d);
    ChartRow(formatDate(d),
             if p.Some? then Some(p.value.productivityScore) else None,
             if p.Some? then Some(p.value.energyLevel) else None,
             if r.Some? then Some(r.value.morningMood) else None)
  }

  function MergedRows(ds: seq<string>, rs: seq<Routine>, ps: seq<Productivity>,
                      formatDate: string -> string): (rows: seq<ChartRow>)
    ensures |rows| == |ds|
    ensures forall i :: 0 <= i < |ds| ==> rows[i] == MergedRow(ds[i], rs, ps, formatDate)
  {
    if ds == [] then [] else [MergedRow(ds[0], rs, ps, formatDate)] + MergedRows(ds[1..], rs, ps, formatDate)
  }

  /** The distinct raw dates of both lists, in first-seen order (routines first). */
  function AllDates(rs: seq<Routine>, ps: seq<Productivity>): seq<string> {
    Dedup(Keys(rs, RoutineDate) + Keys(ps, ProductivityDate))
  }

  /** What the memo returns, as a value. */
  function ProductivityChart(rs: seq<Routine>, ps: seq<Productivity>,
                             formatDate: string -> string): seq<ChartRow>
  {
    if rs == [] && ps == [] then DemoProductivityChart
    else SortBy(MergedRows(AllDates(rs, ps), rs, ps, formatDate), ChartLabel, false)
  }

  lemma KeysSnoc<T>(xs: seq<T>, i: int, key: T -> string)
    requires 0 <= i < |xs|
    ensures Keys(xs[..i + 1], key) == Keys(xs[..i], key) + [key(xs[i])]
  {
  }

  lemma DedupSnoc(xs: seq<string>, x: string)
    ensures Dedup(xs + [x]) == if x in Dedup(xs) then Dedup(xs) else Dedup(xs) + [x]
  {
    assert (xs + [x])[..|xs|] == xs;
  }

  lemma LastWithKeySnoc<T>(xs: seq<T>, i: int, key: T -> string, k: string)
    requires 0 <= i < |xs|
    ensures LastWithKey(xs[..i + 1], key, k) ==
            if key(xs[i]) == k then Some(xs[i]) else LastWithKey(xs[..i], key, k)
  {
    assert xs[..i + 1][..i] == xs[..i];
  }

  /** A date is a key of the merge exactly when some record carries it. */
  lemma AllDatesMembers(rs: seq<Routine>, ps: seq<Productivity>, d: string)
    ensures d in AllDates(rs, ps) <==>
            (exists i :: 0 <= i < |rs| && rs[i].date == d) || (exists j :: 0 <= j < |ps| && ps[j].date == d)
  {
    var ks := Keys(rs, RoutineDate) + Keys(ps, ProductivityDate);
    DedupProperties(ks);
    if d in ks {
      var m :| 0 <= m < |ks| && ks[m] == d;
      if m < |rs| {
        assert rs[m].date == d;
      } else {
        assert ps[m - |rs|].date == d;
      }
    }
    if exists i :: 0 <= i < |rs| && rs[i].date == d {
      var i :| 0 <= i < |rs| && rs[i].date == d;
      assert ks[i] == d;
    }
    if exists j :: 0 <= j < |ps| && ps[j].date == d {
      var j :| 0 <= j < |ps| && ps[j].date == d;
      assert ks[|rs| + j] == d;
    }
  }

  /** The chart Map as it stands after a prefix of each list: keys in insertion order, and the values. */
  ghost predicate MapHolds(order: seq<string>, byDate: map<string, ChartRow>, rs: seq<Routine>,
                           ps: seq<Productivity>, formatDate: string -> string)
  {
    order == AllDates(rs, ps) &&
    (forall d :: d in byDate <==> d in order) &&
    (forall d :: d in byDate ==> byDate[d] == MergedRow(d, rs, ps, formatDate))
  }

  /** Reading one more routine appends its date to the key order unless it is there already. */
  lemma RoutineStepOrder(rs: seq<Routine>, i: int, order: seq<string>, order': seq<string>)
    requires 0 <= i < |rs| && order == AllDates(rs[..i], [])
    requires order' == if rs[i].date in order then order else order + [rs[i].date]
    ensures order' == AllDates(rs[..i + 1], [])
  {
    var ks := Keys(rs[..i], RoutineDate) + Keys([], ProductivityDate);
    KeysSnoc(rs, i, RoutineDate);
    assert Keys(rs[..i + 1], RoutineDate) + Keys([], ProductivityDate) == ks + [rs[i].date];
    DedupSnoc(ks, rs[i].date);
  }

  /** One step of the `routines.forEach` pass keeps the Map in step with the routines read so far. */
  lemma RoutineStep(rs: seq<Routine>, i: int, formatDate: string -> string,
                    order: seq<string>, byDate: map<string, ChartRow>,
                    order': seq<string>, byDate': map<string, ChartRow>)
    requires 0 <= i < |rs| && MapHolds(order, byDate, rs[..i], [], formatDate)
    requires order' == if rs[i].date in order then order else order + [rs[i].date]
    requires byDate' == byDate[rs[i].date :=
               (if rs[i].date in byDate then byDate[rs[i].date]
                else ChartRow(formatDate(rs[i].date), None, None, None)).(morningMood := Some(rs[i].morningMood))]
    ensures MapHolds(order', byDate', rs[..i + 1], [], formatDate)
  {
    RoutineStepOrder(rs, i, order, order');
    if rs[i].date !in byDate {
      FreshDateRow(order, byDate, rs[..i], [], rs[i].date, formatDate);
    }
    forall d | d in byDate'
      ensures byDate'[d] == MergedRow(d, rs[..i + 1], [], formatDate)
    {
      LastWithKeySnoc(rs, i, RoutineDate, d);
    }
  }

  /** The `routines.forEach` pass: each routine sets `morning_mood` on its date's point. */
  method MergeRoutines(rs: seq<Routine>, formatDate: string -> string)
    returns (order: seq<string>, byDate: map<string, ChartRow>)
    ensures MapHolds(order, byDate, rs, [], formatDate)
  {
    order := [];
    byDate := map[];
    var i := 0;
    while i < |rs|
      invariant 0 <= i <= |rs|
      invariant MapHolds(order, byDate, rs[..i], [], formatDate)
    {
      ghost var order0, byDate0 := order, byDate;
      var r := rs[i];
      var existing := if r.date in byDate then byDate[r.date] else ChartRow(formatDate(r.date), None, None, None);
      byDate := byDate[r.date := existing.(morningMood := Some(r.morningMood))];
      if r.date !in order {
        order := order + [r.date];
      }
      RoutineStep(rs, i, formatDate, order0, byDate0, order, byDate);
      i := i + 1;
    }
    assert rs[..|rs|] == rs;
  }

  /** A date the Map does not hold yet has no record in either list read so far. */
  lemma FreshDateRow(order: seq<string>, byDate: map<string, ChartRow>, rs: seq<Routine>, ps: seq<Productivity>,
                     d: string, formatDate: string -> string)
    requires MapHolds(order, byDate, rs, ps, formatDate) && d !in byDate
    ensures MergedRow(d, rs, ps, formatDate) == ChartRow(formatDate(d), None, None, None)
  {
    AllDatesMembers(rs, ps, d);
  }

  /** Reading one more productivity entry appends its date to the key order unless it is there already. */
  lemma ProductivityStepOrder(rs: seq<Routine>, ps: seq<Productivity>, j: int, order: seq<string>, order': seq<string>)
    requires 0 <= j < |ps| && order == AllDates(rs, ps[..j])
    requires order' == if ps[j].date in order then order else order + [ps[j].date]
    ensures order' == AllDates(rs, ps[..j + 1])
  {
    var ks := Keys(rs, RoutineDate) + Keys(ps[..j], ProductivityDate);
    KeysSnoc(ps, j, ProductivityDate);
    assert ks + [ps[j].date] == Keys(rs, RoutineDate) + Keys(ps[..j + 1], ProductivityDate);
    DedupSnoc(ks, ps[j].date);
  }

  /** One step of the `productivity.forEach` pass keeps the Map in step with the lists read so far. */
  lemma ProductivityStep(rs: seq<Routine>, ps: seq<Productivity>, j: int, formatDate: string -> string,
                         order: seq<string>, byDate: map<string, ChartRow>,
                         order': seq<string>, byDate': map<string, ChartRow>)
    requires 0 <= j < |ps| && MapHolds(order, byDate, rs, ps[..j], formatDate)
    requires order' == if ps[j].date in order then order else order + [ps[j].date]
    requires byDate' == byDate[ps[j].date :=
               (if ps[j].date in byDate then byDate[ps[j].date]
                else ChartRow(formatDate(ps[j].date), None, None, None))
               .(productivityScore := Some(ps[j].productivityScore), energyLevel := Some(ps[j].energyLevel))]
    ensures MapHolds(order', byDate', rs, ps[..j + 1], formatDate)
  {
    ProductivityStepOrder(rs, ps, j, order, order');
    if ps[j].date !in byDate {
      FreshDateRow(order, byDate, rs, ps[..j], ps[j].date, formatDate);
    }
    forall d | d in byDate'
      ensures byDate'[d] == MergedRow(d, rs, ps[..j + 1], formatDate)
    {
      LastWithKeySnoc(ps, j, ProductivityDate, d);
    }
  }

  /** The `productivity.forEach` pass: each entry sets the score and energy on its date's point. */
  method MergeProductivity(rs: seq<Routine>, ps: seq<Productivity>, formatDate: string -> string,
                           order0: seq<string>, byDate0: map<string, ChartRow>)
    returns (order: seq<string>, byDate: map<string, ChartRow>)
    requires MapHolds(order0, byDate0, rs, [], formatDate)
    ensures MapHolds(order, byDate, rs, ps, formatDate)
  {
    order, byDate := order0, byDate0;
    assert ps[..0] == [];
    assert MapHolds(order, byDate, rs, ps[..0], formatDate);
    var j := 0;
    while j < |ps|
      invariant 0 <= j <= |ps|
      invariant MapHolds(order, byDate, rs, ps[..j], formatDate)
    {
      var p := ps[j];
      var existing := if p.date in byDate then byDate[p.date] else ChartRow(formatDate(p.date), None, None, None);
      var byDate' := byDate[p.date := existing.(productivityScore := Some(p.productivityScore),
                                               energyLevel := Some(p.energyLevel))];
      var order' := if p.date in order then order else order + [p.date];
      ProductivityStep(rs, ps, j, formatDate, order, byDate, order', byDate');
      assert MapHolds(order', byDate', rs, ps[..j + 1], formatDate);
      order, byDate := order', byDate';
      j := j + 1;
    }
    assert ps[..|ps|] == ps;
  }

  /** `Array.from(dataByDate.values())`: the values in key insertion order. */
  method MapValues(order: seq<string>, byDate: map<string, ChartRow>, rs: seq<Routine>,
                   ps: seq<Productivity>, formatDate: string -> string)
    returns (values: seq<ChartRow>)
    requires MapHolds(order, byDate, rs, ps, formatDate)
    ensures values == MergedRows(AllDates(rs, ps), rs, ps, formatDate)
  {
    values := [];
    var k := 0;
    while k < |order|
      invariant 0 <= k <= |order|
      invariant |values| == k
      invariant forall m :: 0 <= m < k ==> values[m] == MergedRow(order[m], rs, ps, formatDate)
    {
      values := values + [byDate[order[k]]];
      k := k + 1;
    }
  }

  /**
   * `productivityChartData`: a Map keyed by raw date is filled from the
   * routines and then from the productivity entries, its values are taken in
   * insertion order and sorted by label.
   */
  method ProductivityChartData(rs: seq<Routine>, ps: seq<Productivity>, formatDate: string -> string)
    returns (rows: seq<ChartRow>)
    ensures rows == ProductivityChart(rs, ps, formatDate)
  {
    if rs == [] && ps == [] {
      return DemoProductivityChart;
    }
    var order, byDate := MergeRoutines(rs, formatDate);
    order, byDate := MergeProductivity(rs, ps, formatDate, order, byDate);
    var values := MapValues(order, byDate, rs, ps, formatDate);
    rows := SortBy(values, ChartLabel, false);
  }

  /**
   * With data present the chart has one point per distinct raw date, sorted
   * ascending by label, and is a rearrangement of the merged points.
   */
  lemma ProductivityChartShape(rs: seq<Routine>, ps: seq<Productivity>, formatDate: string -> string)
    requires rs != [] || ps != []
    ensures var rows := ProductivityChart(rs, ps, formatDate);
            var merged := MergedRows(AllDates(rs, ps), rs, ps, formatDate);
            |rows| == |AllDates(rs, ps)| &&
            SortedBy(rows, ChartLabel, false) &&
            multiset(rows) == multiset(merged)
    ensures forall i, j :: 0 <= i < j < |AllDates(rs, ps)| ==> AllDates(rs, ps)[i] != AllDates(rs, ps)[j]
  {
    var merged := MergedRows(AllDates(rs, ps), rs, ps, formatDate);
    SortBySorted(merged, ChartLabel, false);
    SortByLength(merged, ChartLabel, false);
    DedupProperties(Keys(rs, RoutineDate) + Keys(ps, ProductivityDate));
  }

  /**
   * Routines contribute only the mood and productivity entries only the score
   * and energy; a property is present exactly when a record of that kind has
   * the date, and then comes from the last such record.
   */
  lemma MergedRowSources(d: string, rs: seq<Routine>, ps: seq<Productivity>, formatDate: string -> string)
    ensures var row := MergedRow(d, rs, ps, formatDate);
            row.dateLabel == formatDate(d) &&
            (row.morningMood.None? <==> forall i :: 0 <= i < |rs| ==> rs[i].date != d) &&
            (row.productivityScore.None? <==> forall j :: 0 <= j < |ps| ==> ps[j].date != d) &&
            (row.energyLevel.None? <==> row.productivityScore.None?) &&
            (row.morningMood.Some? ==> exists i :: 0 <= i < |rs| && rs[i].date == d &&
                                                    rs[i].morningMood == row.morningMood.value &&
                                                    forall k :: i < k < |rs| ==> rs[k].date != d) &&
            (row.productivityScore.Some? ==> exists j :: 0 <= j < |ps| && ps[j].date == d &&
                                                          ps[j].productivityScore == row.productivityScore.value &&
                                                          row.energyLevel == Some(ps[j].energyLevel) &&
                                                          forall k :: j < k < |ps| ==> ps[k].date != d)
  {
    var r := LastWithKey(rs, RoutineDate, d);
    if r.Some? {
      var i :| 0 <= i < |rs| && rs[i] == r.value && RoutineDate(rs[i]) == d &&
               forall k :: i < k < |rs| ==> RoutineDate(rs[k]) != d;
      assert rs[i].morningMood == MergedRow(d, rs, ps, formatDate).morningMood.value;
    }
    var p := LastWithKey(ps, ProductivityDate, d);
    if p.Some? {
      var j :| 0 <= j < |ps| && ps[j] == p.value && ProductivityDate(ps[j]) == d &&
               forall k :: j < k < |ps| ==> ProductivityDate(ps[k]) != d;
      assert ps[j].productivityScore == MergedRow(d, rs, ps, formatDate).productivityScore.value;
    }
  }

  // ------------------------------------------------------------------
  // routineChartData
  // ------------------------------------------------------------------

  datatype RoutineBar = RoutineBar(dateLabel: string, sleepHours: real, exerciseMinutes: int, meditationMinutes: int)

  const DemoRoutineChart: seq<RoutineBar> := [
    RoutineBar("Jan 1", 7.0, 30, 10),
    RoutineBar("Jan 2", 8.0, 45, 15),
    RoutineBar("Jan 3", 6.0, 0, 5),
    RoutineBar("Jan 4", 8.0, 60, 20),
    RoutineBar("Jan 5", 7.0, 30, 10),
    RoutineBar("Jan 6", 7.5, 45, 15),
    RoutineBar("Jan 7", 8.0, 50, 20)
  ]

  function BarsOf(rs: seq<Routine>, formatDate: string -> string): (bars: seq<RoutineBar>)
    ensures |bars| == |rs|
    ensures forall i :: 0 <= i < |rs| ==>
              bars[i] == RoutineBar(formatDate(rs[i].date), rs[i].sleepHours,
                                    rs[i].exerciseMinutes, rs[i].meditationMinutes)
  {
    if rs == [] then []
    else [RoutineBar(formatDate(rs[0].date), rs[0].sleepHours, rs[0].exerciseMinutes, rs[0].meditationMinutes)]
         + BarsOf(rs[1..], formatDate)
  }

  /** `routineChartData`: one bar per routine, in the same order, or the demo bars when there are none. */
  function RoutineChartData(rs: seq<Routine>, formatDate: string -> string): (bars: seq<RoutineBar>)
    ensures rs == [] ==> bars == DemoRoutineChart
    ensures rs != [] ==> |bars| == |rs|
    ensures rs != [] ==> forall i :: 0 <= i < |rs| ==>
              bars[i].dateLabel == formatDate(rs[i].date) && bars[i].sleepHours == rs[i].sleepHours &&
              bars[i].exerciseMinutes == rs[i].exerciseMinutes && bars[i].meditationMinutes == rs[i].meditationMinutes
  {
    if rs == [] then DemoRoutineChart else BarsOf(rs, formatDate)
  }

  // ------------------------------------------------------------------
  // sleepDistribution
  // ------------------------------------------------------------------

  datatype Slice = Slice(name: string, value: int, color: string)

  const BucketNames: seq<string> := ["<6 hrs", "6-7 hrs", "7-8 hrs", ">8 hrs"]
  const BucketColors: seq<string> := ["#ef4444", "#f97316", "#22c55e", "#3b82f6"]

  const DemoSleepDistribution: seq<Slice> := [
    Slice("<6 hrs", 10, "#ef4444"),
    Slice("6-7 hrs", 25, "#f97316"),
    Slice("7-8 hrs", 40, "#22c55e"),
    Slice(">8 hrs", 25, "#3b82f6")
  ]

  /** Index of the bucket a night falls in: `< 6`, `< 7`, `< 8`, otherwise the last. */
  function SleepBucket(hours: real): nat {
    if hours < 6.0 then 0 else if hours < 7.0 then 1 else if hours < 8.0 then 2 else 3
  }

  /** Number of routines whose night falls in bucket `b`. */
  function CountIn(rs: seq<Routine>, b: nat): (n: nat)
    ensures n <= |rs|
  {
    if rs == [] then 0
    else CountIn(rs[..|rs| - 1], b) + (if SleepBucket(rs[|rs| - 1].sleepHours) == b then 1 else 0)
  }

  /** JavaScript `Math.round` on an exact rational: halves round up. */
  function RoundHalfUp(x: real): int {
    (x + 0.5).Floor
  }

  /** `Math.round((count / total) * 100)` (never NaN here, so `|| 0` only maps 0 to 0). */
  function Percent(count: nat, total: nat): int
    requires total > 0
  {
    RoundHalfUp((count as real) / (total as real) * 100.0)
  }

  /** The four slices for a non-empty list of routines. */
  function SleepSlices(rs: seq<Routine>): seq<Slice>
    requires rs != []
  {
    seq(4, b requires 0 <= b < 4 => Slice(BucketNames[b], Percent(CountIn(rs, b), |rs|), BucketColors[b]))
  }

  /** `sleepDistribution`: count the nights per bucket in a loop, then convert counts to rounded percentages. */
  method SleepDistribution(rs: seq<Routine>) returns (slices: seq<Slice>)
    ensures rs == [] ==> slices == DemoSleepDistribution
    ensures rs != [] ==> slices == SleepSlices(rs)
  {
    if rs == [] {
      return DemoSleepDistribution;
    }
    var counts: seq<nat> := [0, 0, 0, 0];
    var i := 0;
    while i < |rs|
      invariant 0 <= i <= |rs|
      invariant |counts| == 4
      invariant forall b :: 0 <= b < 4 ==> counts[b] == CountIn(rs[..i], b)
    {
      var b := SleepBucket(rs[i].sleepHours);
      counts := counts[b := counts[b] + 1];
      assert rs[..i + 1][..i] == rs[..i];
      i := i + 1;
    }
    assert rs[..|rs|] == rs;
    var total := |rs|;
    slices := [
      Slice("<6 hrs", Percent(counts[0], total), "#ef4444"),
      Slice("6-7 hrs", Percent(counts[1], total), "#f97316"),
      Slice("7-8 hrs", Percent(counts[2], total), "#22c55e"),
      Slice(">8 hrs", Percent(counts[3], total), "#3b82f6")
    ];
  }

  /** Every night lands in exactly one of the four buckets. */
  lemma {:induction false} BucketCountsSum(rs: seq<Routine>)
    ensures CountIn(rs, 0) + CountIn(rs, 1) + CountIn(rs, 2) + CountIn(rs, 3) == |rs|
    ensures forall b :: b >= 4 ==> CountIn(rs, b) == 0
  {
    if rs != [] {
      BucketCountsSum(rs[..|rs| - 1]);
    }
  }

  /** A share of a total rounds to a whole percentage between 0 and 100. */
  lemma PercentBounds(count: nat, total: nat)
    requires 0 < total && count <= total
    ensures 0 <= Percent(count, total) <= 100
    ensures count == 0 ==> Percent(count, total) == 0
    ensures count == total ==> Percent(count, total) == 100
  {
    var x := (count as real) / (total as real) * 100.0;
    assert 0.0 <= (count as real) / (total as real) <= 1.0;
    assert 0.0 <= x <= 100.0;
    if count == total {
      assert (total as real) / (total as real) == 1.0;
      assert x + 0.5 == 100.5;
    }
  }

  lemma SleepSlicesInRange(rs: seq<Routine>)
    requires rs != []
    ensures forall b :: 0 <= b < 4 ==> 0 <= SleepSlices(rs)[b].value <= 100
  {
    forall b | 0 <= b < 4 ensures 0 <= SleepSlices(rs)[b].value <= 100 {
      PercentBounds(CountIn(rs, b), |rs|);
    }
  }

  function NightOf(hours: real): Routine {
    Routine("", "", "", "", hours, 0, 0, "good", 5, 0, 0, 0)
  }

  /** Nights of 5, 6.5 and 8 hours give 33, 33, 0 and 33: exactly 8 hours is in the last bucket. */
  lemma SleepSlicesExample()
    ensures var rs := [NightOf(5.0), NightOf(6.5), NightOf(8.0)];
            SleepSlices(rs)[0].value == 33 && SleepSlices(rs)[1].value == 33 &&
            SleepSlices(rs)[2].value == 0 && SleepSlices(rs)[3].value == 33
  {
    var rs := [NightOf(5.0), NightOf(6.5), NightOf(8.0)];
    assert rs[..2] == [NightOf(5.0), NightOf(6.5)];
    assert rs[..2][..1] == [NightOf(5.0)];
    assert CountIn(rs, 0) == 1 && CountIn(rs, 1) == 1 && CountIn(rs, 2) == 0 && CountIn(rs, 3) == 1;
    assert (1 as real) / (3 as real) * 100.0 + 0.5 == 100.0 / 3.0 + 0.5;
    assert 33.0 <= 100.0 / 3.0 + 0.5 < 34.0;
    assert Percent(1, 3) == 33;
    assert Percent(0, 3) == 0;
  }

  // ------------------------------------------------------------------
  // recentEntries
  // ------------------------------------------------------------------

  /** A table cell: `'-'`, a sleep duration printed as `${h} hrs`, or a number. */
  datatype Cell = Dash | Hours(h: real) | Number(n: int)

  datatype RecentRow = RecentRow(dateLabel: string, wake: string, sleep: Cell, prod: Cell, mood: Cell)

  const DemoRecentEntries: seq<RecentRow> := [
    RecentRow("Jan 7", "6:15 AM", Hours(8.0), Number(9), Number(8)),
    RecentRow("Jan 6", "6:30 AM", Hours(7.5), Number(8), Number(9)),
    RecentRow("Jan 5", "6:45 AM", Hours(7.0), Number(7), Number(7)),
    RecentRow("Jan 4", "6:00 AM", Hours(8.0), Number(9), Number(8)),
    RecentRow("Jan 3", "7:00 AM", Hours(6.0), Number(6), Number(6))
  ]

  /**
   * The dates of the table: the set of all dates sorted descending and cut to
   * five. On distinct strings a descending sort is the reverse of the
   * ascending one.
   */
  function RecentDates(rs: seq<Routine>, ps: seq<Productivity>): seq<string> {
    Take(Reverse(SortedSet(Keys(rs, RoutineDate) + Keys(ps, ProductivityDate))), 5)
  }

  /** The row for date `d`; a Map built from a list keeps the last record of each date. */
  function RecentRowFor(d: string, rs: seq<Routine>, ps: seq<Productivity>,
                        formatDate: string -> string): RecentRow
  {
    var r := LastWithKey(rs, RoutineDate, d);
    var p := LastWithKey(ps, ProductivityDate, d);
    RecentRow(formatDate(d),
              if r.Some? then FormatTime(r.value.wakeTime) else "-",
              if r.Some? then Hours(r.value.sleepHours) else Dash,
              if p.Some? then Number(p.value.productivityScore) else Dash,
              if r.Some? then Number(r.value.morningMood) else Dash)
  }

  function RowsFor(ds: seq<string>, rs: seq<Routine>, ps: seq<Productivity>,
                   formatDate: string -> string): (rows: seq<RecentRow>)
    ensures |rows| == |ds|
    ensures forall i :: 0 <= i < |ds| ==> rows[i] == RecentRowFor(ds[i], rs, ps, formatDate)
  {
    if ds == [] then [] else [RecentRowFor(ds[0], rs, ps, formatDate)] + RowsFor(ds[1..], rs, ps, formatDate)
  }

  /** `recentEntries`: one row per recent date, or the demo rows when both lists are empty. */
  function RecentEntries(rs: seq<Routine>, ps: seq<Productivity>, formatDate: string -> string): (rows: seq<RecentRow>)
    ensures rs == [] && ps == [] ==> rows == DemoRecentEntries
    ensures rs != [] || ps != [] ==>
              |rows| == |RecentDates(rs, ps)| &&
              forall i :: 0 <= i < |rows| ==> rows[i] == RecentRowFor(RecentDates(rs, ps)[i], rs, ps, formatDate)
  {
    if rs == [] && ps == [] then DemoRecentEntries else RowsFor(RecentDates(rs, ps), rs, ps, formatDate)
  }

  /** The table shows at most five distinct dates, newest first, each taken from one of the lists. */
  lemma RecentDatesOrdered(rs: seq<Routine>, ps: seq<Productivity>)
    ensures var ds := RecentDates(rs, ps);
            |ds| <= 5 &&
            StrictlyDecreasing(ds) &&
            (forall i :: 0 <= i < |ds| ==> ds[i] in Keys(rs, RoutineDate) + Keys(ps, ProductivityDate))
  {
    var all := Keys(rs, RoutineDate) + Keys(ps, ProductivityDate);
    var sorted := SortedSet(all);
    SortedSetProperties(all);
    var ds := RecentDates(rs, ps);
    forall i | 0 <= i < |ds| ensures ds[i] in all {
      assert ds[i] == sorted[|sorted| - 1 - i];
      assert sorted[|sorted| - 1 - i] in sorted;
    }
  }

  /** A date of a strictly increasing sequence that is not among the five last is older than each of them. */
  lemma NotRecentIsOlder(sorted: seq<string>, d: string)
    requires StrictlyIncreasing(sorted) && d in sorted && d !in Take(Reverse(sorted), 5)
    ensures var ds := Take(Reverse(sorted), 5);
            |ds| == 5 && forall i :: 0 <= i < |ds| ==> Less(d, ds[i])
  {
    var desc := Reverse(sorted);
    var ds := Take(desc, 5);
    var m :| 0 <= m < |sorted| && sorted[m] == d;
    var k := |sorted| - 1 - m;
    assert desc[k] == d;
    assert forall j :: 0 <= j < |ds| ==> ds[j] != d;
    assert k >= |ds|;
    forall i | 0 <= i < |ds| ensures Less(d, ds[i]) {
      assert ds[i] == sorted[|sorted| - 1 - i];
    }
  }

  /** No date left out of the table is newer than a date shown, and dates are left out only when five are shown. */
  lemma RecentDatesNewest(rs: seq<Routine>, ps: seq<Productivity>)
    ensures var ds := RecentDates(rs, ps);
            forall d :: d in Keys(rs, RoutineDate) + Keys(ps, ProductivityDate) && d !in ds ==>
              |ds| == 5 && forall i :: 0 <= i < |ds| ==> Less(d, ds[i])
  {
    var all := Keys(rs, RoutineDate) + Keys(ps, ProductivityDate);
    SortedSetProperties(all);
    forall d | d in all && d !in RecentDates(rs, ps)
      ensures |RecentDates(rs, ps)| == 5 && forall i :: 0 <= i < |RecentDates(rs, ps)| ==> Less(d, RecentDates(rs, ps)[i])
    {
      NotRecentIsOlder(SortedSet(all), d);
    }
  }

  /** A cell is `'-'` exactly when no record of the relevant kind has that date. */
  lemma RecentRowCells(d: string, rs: seq<Routine>, ps: seq<Productivity>, formatDate: string -> string)
    ensures var row := RecentRowFor(d, rs, ps, formatDate);
            (row.sleep.Dash? <==> forall i :: 0 <= i < |rs| ==> rs[i].date != d) &&
            (row.mood.Dash? <==> row.sleep.Dash?) &&
            (row.sleep.Dash? ==> row.wake == "-") &&
            (row.prod.Dash? <==> forall j :: 0 <= j < |ps| ==> ps[j].date != d)
  {
  }

  // ------------------------------------------------------------------
  // Loading, error and empty flags
  // ------------------------------------------------------------------

  /** The part of a fetch slot the banners read: its loading flag and its error (`None` is null). */
  datatype SlotView = SlotView(loading: bool, error: Option<string>)

  /** JavaScript `a || b` on `string | null`. */
  function JsOr(a: Option<string>, b: Option<string>): Option<string> {
    if Truthy(a) then a else b
  }

  datatype Banners = Banners(refreshDisabled: bool, errorBanner: Option<string>, noDataBanner: bool)

  /**
   * The Refresh button state and the two banners, from the routine,
   * productivity and summary slots and the record counts. The chart slot is
   * not an input: its loading flag and error are never shown.
   */
  function DashboardBanners(routines: SlotView, productivity: SlotView, summary: SlotView,
                            routineCount: nat, productivityCount: nat): (b: Banners)
    ensures b.refreshDisabled <==> routines.loading || productivity.loading || summary.loading
    ensures b.errorBanner.Some? <==> Truthy(routines.error) || Truthy(productivity.error) || Truthy(summary.error)
    ensures b.errorBanner.Some? ==>
              b.errorBanner == (if Truthy(routines.error) then routines.error
                                else if Truthy(productivity.error) then productivity.error
                                else summary.error)
    ensures b.noDataBanner <==>
              !b.refreshDisabled && routineCount == 0 && productivityCount == 0 && b.errorBanner.None?
  {
    var isLoading := routines.loading || productivity.loading || summary.loading;
    var hasError := JsOr(JsOr(routines.error, productivity.error), summary.error);
    var hasData := routineCount != 0 || productivityCount != 0;
    Banners(isLoading,
            if Truthy(hasError) then hasError else None,
            !isLoading && !hasData && !Truthy(hasError))
  }

  /** The error banner does not wait for loading to finish. */
  lemma ErrorBannerWhileLoading(routines: SlotView, productivity: SlotView, summary: SlotView, n: nat, m: nat)
    requires routines.loading && !Truthy(routines.error) && Truthy(productivity.error)
    ensures DashboardBanners(routines, productivity, summary, n, m).refreshDisabled
    ensures DashboardBanners(routines, productivity, summary, n, m).errorBanner == productivity.error
  {
  }
}
