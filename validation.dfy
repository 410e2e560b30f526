/**
 * The request bodies the backend accepts, as its Pydantic models declare them
 * (backend/app/models/routine.py, productivity.py and user.py).
 *
 * A body lists, for every key a client may send for an entity, whether it was
 * left out, sent as `null`, or sent with a value of the field's type. The base
 * model of the entity (`...Base` / `...Create`) checks the bounds, rejects a
 * missing required field and a `null` where `None` is not allowed, and fills
 * in the defaults. The update model (`...Update`) makes every field optional
 * with the same bounds, ignores the keys it does not declare, and yields the
 * row `model_dump(exclude_unset=True)` gives the services: the keys that were
 * sent, `null` included. A rejected body names every field that fails.
 */
module Validation {
  import opened Common
  import opened Store

  /** One key of a JSON body. */
  datatype Sent<T> = Unset | Null | Given(v: T)

  /** The outcome of `Model(**body)`: the model, or the names of the failing fields (`ValidationError`). */
  datatype Checked<T> = Accepted(value: T) | Rejected(fields: set<string>)

  /** A field without default: it must be sent, with an accepted value. */
  function Required<T>(s: Sent<T>, ok: T -> bool, name: string): set<string> {
    if s.Given? && ok(s.v) then {} else {name}
  }

  /** A field with a default: it may be left out, but not sent as `null`. */
  function Defaulted<T>(s: Sent<T>, ok: T -> bool, name: string): set<string> {
    if s.Null? || (s.Given? && !ok(s.v)) then {name} else {}
  }

  /** An `X | None` field: left out or `null` is `None`, otherwise the bounds apply. */
  function Nullable<T>(s: Sent<T>, ok: T -> bool, name: string): set<string> {
    if s.Given? && !ok(s.v) then {name} else {}
  }

  function OrDefault<T>(s: Sent<T>, default: T): T {
    if s.Given? then s.v else default
  }

  function OrNone<T>(s: Sent<T>): Option<T> {
    if s.Given? then Some(s.v) else None
  }

  /** One field of a request body, named by its column, its value already converted to a column value. */
  datatype Field = Field(name: string, sent: Sent<Value>)

  /** A sent value converted by `value`; left out and `null` stay as they are. */
  function Lift<T>(s: Sent<T>, value: T -> Value): Sent<Value> {
    match s
    case Unset => Unset
    case Null => Null
    case Given(v) => Given(value(v))
  }

  /** `model_dump(exclude_unset=True)`: a key for every field that was sent, `null` as `VNull`. */
  function Dump(fs: seq<Field>): Row {
    DumpFrom(fs, 0)
  }

  /** The dump of the fields from index `i` on. */
  function DumpFrom(fs: seq<Field>, i: nat): Row
    requires i <= |fs|
    decreases |fs| - i
  {
    if i == |fs| then map[]
    else
      var row := DumpFrom(fs, i + 1);
      match fs[i].sent
      case Unset => row
      case Null => row[fs[i].name := VNull]
      case Given(v) => row[fs[i].name := v]
  }

  /** How a dumped row holds one field: present iff sent, `null` as `VNull`, otherwise its value. */
  predicate Recorded(row: Row, f: Field) {
    (f.name in row <==> !f.sent.Unset?) &&
    (f.sent.Given? ==> f.name in row && row[f.name] == f.sent.v) &&
    (f.sent.Null? ==> f.name in row && row[f.name] == VNull)
  }

  /** `Recorded` for the body field `s`, stored under `name` through `value`. */
  predicate Dumped<T>(row: Row, name: string, s: Sent<T>, value: T -> Value) {
    Recorded(row, Field(name, Lift(s, value)))
  }

  predicate DistinctNames(fs: seq<Field>) {
    forall i, j :: 0 <= i < j < |fs| ==> fs[i].name != fs[j].name
  }

  /** Over distinct names, the dump records every field and holds no key that is not a field's. */
  lemma DumpRecords(fs: seq<Field>)
    requires DistinctNames(fs)
    ensures forall k | k in Dump(fs) :: exists i :: 0 <= i < |fs| && fs[i].name == k
    ensures forall i | 0 <= i < |fs| :: Recorded(Dump(fs), fs[i])
  {
    DumpFromRecords(fs, 0);
  }

  /** The column value of a sent field. */
  function SentValue(s: Sent<Value>): Value
    requires !s.Unset?
  {
    if s.Null? then VNull else s.v
  }

  /** When no field but the `k`-th is sent, the dump holds that one key (or none). */
  lemma DumpOnly(fs: seq<Field>, k: nat)
    requires forall i | 0 <= i < |fs| && i != k :: fs[i].sent.Unset?
    ensures Dump(fs) == if k < |fs| && !fs[k].sent.Unset? then map[fs[k].name := SentValue(fs[k].sent)] else map[]
  {
    DumpFromOnly(fs, 0, k);
  }

  lemma {:induction false} DumpFromOnly(fs: seq<Field>, from: nat, k: nat)
    requires from <= |fs|
    requires forall i | from <= i < |fs| && i != k :: fs[i].sent.Unset?
    ensures DumpFrom(fs, from) ==
            if from <= k < |fs| && !fs[k].sent.Unset? then map[fs[k].name := SentValue(fs[k].sent)] else map[]
    decreases |fs| - from
  {
    if from < |fs| {
      DumpFromOnly(fs, from + 1, k);
    }
  }

  /** Merging a dump into a stored row: a column sent with a value takes it, an unsent one keeps its own. */
  lemma MergeColumn<T>(stored: Row, row: Row, name: string, s: Sent<T>, value: T -> Value, current: T)
    requires name in stored && stored[name] == value(current)
    requires !s.Null? && Dumped(row, name, s, value)
    ensures name in stored + row && (stored + row)[name] == value(OrDefault(s, current))
  {
  }

  /** A dump whose keys are all columns of the stored row leaves the stored row's columns as they are. */
  lemma MergeKeys(stored: Row, row: Row)
    requires row.Keys <= stored.Keys
    ensures (stored + row).Keys == stored.Keys
  {
  }

  lemma {:induction false} DumpFromRecords(fs: seq<Field>, from: nat)
    requires from <= |fs| && DistinctNames(fs)
    ensures forall k | k in DumpFrom(fs, from) :: exists i :: from <= i < |fs| && fs[i].name == k
    ensures forall i | from <= i < |fs| :: Recorded(DumpFrom(fs, from), fs[i])
    decreases |fs| - from
  {
    if from < |fs| {
      DumpFromRecords(fs, from + 1);
    }
  }

  function Str(s: string): Value { VStr(s) }
  function Int(i: int): Value { VInt(i) }
  function Real(x: real): Value { VReal(x) }
  function Bool(b: bool): Value { VBool(b) }
  function Date(iso: string): Value { VDate(iso) }
  function Time(iso: string): Value { VTime(iso) }

  // ------------------------------------------------------------------
  // Field bounds, shared by the base and the update models
  // ------------------------------------------------------------------

  predicate AnyText(s: string) { true }
  predicate AnyReal(x: real) { true }
  predicate AnyBool(b: bool) { true }
  predicate NonNegative(i: int) { i >= 0 }
  predicate NonNegativeReal(x: real) { x >= 0.0 }
  predicate OneToTen(i: int) { 1 <= i <= 10 }
  predicate SleepHours(x: real) { 0.0 <= x <= 24.0 }
  /** A `max_length` bound. */
  predicate Text10(s: string) { |s| <= 10 }
  predicate Text20(s: string) { |s| <= 20 }
  predicate Text50(s: string) { |s| <= 50 }
  predicate Text100(s: string) { |s| <= 100 }
  predicate DateRange(days: int) { 7 <= days <= 365 }

  const BreakfastQualities := {"poor", "fair", "good", "excellent"}
  const Genders := {"male", "female", "non_binary", "prefer_not_to_say"}
  const Themes := {"light", "dark", "system"}
  const Visibilities := {"public", "private", "friends"}
  const ChartTypes := {"line", "bar", "area"}
  const WeekStarts := {"monday", "sunday"}
  const TimeFormats := {"12h", "24h"}
  const MeasurementSystems := {"metric", "imperial"}
  const GoalTypes := {"sleep_duration", "wake_time", "exercise_minutes", "meditation_minutes",
                      "water_intake", "caffeine_limit", "productivity_score", "focus_hours",
                      "tasks_completed", "stress_level_max", "screen_time_limit"}

  /** The `Literal[...]` types. */
  predicate IsBreakfastQuality(s: string) { s in BreakfastQualities }
  predicate IsGender(s: string) { s in Genders }
  predicate IsTheme(s: string) { s in Themes }
  predicate IsVisibility(s: string) { s in Visibilities }
  predicate IsChartType(s: string) { s in ChartTypes }
  predicate IsWeekStart(s: string) { s in WeekStarts }
  predicate IsTimeFormat(s: string) { s in TimeFormats }
  predicate IsMeasurementSystem(s: string) { s in MeasurementSystems }
  predicate IsGoalType(s: string) { s in GoalTypes }

  // ------------------------------------------------------------------
  // Morning routine
  // ------------------------------------------------------------------

  datatype RoutineBody = RoutineBody(
    date: Sent<string>, wakeTime: Sent<string>, sleepHours: Sent<real>, exerciseMinutes: Sent<int>,
    meditationMinutes: Sent<int>, breakfastQuality: Sent<string>, morningMood: Sent<int>,
    screenTimeBeforeBed: Sent<int>, caffeineIntake: Sent<int>, waterIntakeMl: Sent<int>)

  /** `MorningRoutineCreate`. */
  datatype RoutineCreate = RoutineCreate(
    date: string, wakeTime: string, sleepHours: real, exerciseMinutes: int, meditationMinutes: int,
    breakfastQuality: string, morningMood: int, screenTimeBeforeBed: int, caffeineIntake: int,
    waterIntakeMl: int)

  /** The bounds `MorningRoutineBase` puts on a routine. */
  predicate ValidRoutine(m: RoutineCreate) {
    SleepHours(m.sleepHours) && NonNegative(m.exerciseMinutes) && NonNegative(m.meditationMinutes) &&
    IsBreakfastQuality(m.breakfastQuality) && OneToTen(m.morningMood) &&
    NonNegative(m.screenTimeBeforeBed) && NonNegative(m.caffeineIntake) && NonNegative(m.waterIntakeMl)
  }

  function RoutineErrors(b: RoutineBody): set<string> {
    Required(b.date, AnyText, "date") + Required(b.wakeTime, AnyText, "wake_time") +
    Required(b.sleepHours, SleepHours, "sleep_duration_hours") +
    Defaulted(b.exerciseMinutes, NonNegative, "exercise_minutes") +
    Defaulted(b.meditationMinutes, NonNegative, "meditation_minutes") +
    Defaulted(b.breakfastQuality, IsBreakfastQuality, "breakfast_quality") +
    Required(b.morningMood, OneToTen, "morning_mood") +
    Defaulted(b.screenTimeBeforeBed, NonNegative, "screen_time_before_bed") +
    Defaulted(b.caffeineIntake, NonNegative, "caffeine_intake") +
    Defaulted(b.waterIntakeMl, NonNegative, "water_intake_ml")
  }

  /** `MorningRoutineCreate(**body)`. */
  function ValidateRoutine(b: RoutineBody): (r: Checked<RoutineCreate>)
    ensures r.Accepted? ==> (ValidRoutine(r.value) &&
              b.date == Given(r.value.date) && b.wakeTime == Given(r.value.wakeTime) &&
              b.sleepHours == Given(r.value.sleepHours) && b.morningMood == Given(r.value.morningMood) &&
              r.value.exerciseMinutes == OrDefault(b.exerciseMinutes, 0) &&
              r.value.meditationMinutes == OrDefault(b.meditationMinutes, 0) &&
              r.value.breakfastQuality == OrDefault(b.breakfastQuality, "good") &&
              r.value.screenTimeBeforeBed == OrDefault(b.screenTimeBeforeBed, 0) &&
              r.value.caffeineIntake == OrDefault(b.caffeineIntake, 0) &&
              r.value.waterIntakeMl == OrDefault(b.waterIntakeMl, 0))
    ensures r.Rejected? ==> r.fields != {}
  {
    var errors := RoutineErrors(b);
    if errors != {} then Rejected(errors)
    else
      Accepted(RoutineCreate(
        b.date.v, b.wakeTime.v, b.sleepHours.v, OrDefault(b.exerciseMinutes, 0),
        OrDefault(b.meditationMinutes, 0), OrDefault(b.breakfastQuality, "good"), b.morningMood.v,
        OrDefault(b.screenTimeBeforeBed, 0), OrDefault(b.caffeineIntake, 0), OrDefault(b.waterIntakeMl, 0)))
  }

  /** The body that sends every field of a model. */
  function RoutineBodyOf(m: RoutineCreate): RoutineBody {
    RoutineBody(Given(m.date), Given(m.wakeTime), Given(m.sleepHours), Given(m.exerciseMinutes),
                Given(m.meditationMinutes), Given(m.breakfastQuality), Given(m.morningMood),
                Given(m.screenTimeBeforeBed), Given(m.caffeineIntake), Given(m.waterIntakeMl))
  }

  /** Validating the dump of a valid routine gives it back, and only valid routines come back. */
  lemma RoutineRoundTrip(m: RoutineCreate)
    ensures ValidateRoutine(RoutineBodyOf(m)) == Accepted(m) <==> ValidRoutine(m)
  {
  }

  /** `MorningRoutineUpdate(**body).model_dump(exclude_unset=True)`; `date` is not one of its fields. */
  function ValidateRoutineUpdate(b: RoutineBody): (r: Checked<Row>)
    ensures r.Rejected? ==> r.fields != {}
  {
    var errors :=
      Nullable(b.sleepHours, SleepHours, "sleep_duration_hours") +
      Nullable(b.exerciseMinutes, NonNegative, "exercise_minutes") +
      Nullable(b.meditationMinutes, NonNegative, "meditation_minutes") +
      Nullable(b.breakfastQuality, IsBreakfastQuality, "breakfast_quality") +
      Nullable(b.morningMood, OneToTen, "morning_mood") +
      Nullable(b.screenTimeBeforeBed, NonNegative, "screen_time_before_bed") +
      Nullable(b.caffeineIntake, NonNegative, "caffeine_intake") +
      Nullable(b.waterIntakeMl, NonNegative, "water_intake_ml");
    if errors != {} then Rejected(errors) else Accepted(RoutineUpdateRow(b))
  }

  /** `model_dump(exclude_unset=True)` of a routine update: the keys that were sent, `null` as `VNull`. */
  function RoutineUpdateRow(b: RoutineBody): Row {
    Dump(RoutineFields(b))
  }

  /** The fields of a routine body, with their columns. */
  function RoutineFields(b: RoutineBody): seq<Field> {
    [Field("wake_time", Lift(b.wakeTime, Str)),
     Field("sleep_duration_hours", Lift(b.sleepHours, Real)),
     Field("exercise_minutes", Lift(b.exerciseMinutes, Int)),
     Field("meditation_minutes", Lift(b.meditationMinutes, Int)),
     Field("breakfast_quality", Lift(b.breakfastQuality, Str)),
     Field("morning_mood", Lift(b.morningMood, Int)),
     Field("screen_time_before_bed", Lift(b.screenTimeBeforeBed, Int)),
     Field("caffeine_intake", Lift(b.caffeineIntake, Int)),
     Field("water_intake_ml", Lift(b.waterIntakeMl, Int))]
  }

  /** A stored routine with the sent fields of an update applied (`null` sends left out). */
  function ApplyRoutineUpdate(m: RoutineCreate, b: RoutineBody): RoutineCreate {
    m.(wakeTime := OrDefault(b.wakeTime, m.wakeTime), sleepHours := OrDefault(b.sleepHours, m.sleepHours),
       exerciseMinutes := OrDefault(b.exerciseMinutes, m.exerciseMinutes),
       meditationMinutes := OrDefault(b.meditationMinutes, m.meditationMinutes),
       breakfastQuality := OrDefault(b.breakfastQuality, m.breakfastQuality),
       morningMood := OrDefault(b.morningMood, m.morningMood),
       screenTimeBeforeBed := OrDefault(b.screenTimeBeforeBed, m.screenTimeBeforeBed),
       caffeineIntake := OrDefault(b.caffeineIntake, m.caffeineIntake),
       waterIntakeMl := OrDefault(b.waterIntakeMl, m.waterIntakeMl))
  }

  /** The columns of a stored routine, as the services write them. */
  function RoutineRowOf(m: RoutineCreate): Row {
    map["date" := Str(m.date), "wake_time" := Str(m.wakeTime), "sleep_duration_hours" := Real(m.sleepHours),
        "exercise_minutes" := Int(m.exerciseMinutes), "meditation_minutes" := Int(m.meditationMinutes),
        "breakfast_quality" := Str(m.breakfastQuality), "morning_mood" := Int(m.morningMood),
        "screen_time_before_bed" := Int(m.screenTimeBeforeBed), "caffeine_intake" := Int(m.caffeineIntake),
        "water_intake_ml" := Int(m.waterIntakeMl)]
  }

  /** No field of the update is sent as `null`. */
  predicate NoNullRoutineUpdate(b: RoutineBody) {
    !b.wakeTime.Null? && !b.sleepHours.Null? && !b.exerciseMinutes.Null? && !b.meditationMinutes.Null? &&
    !b.breakfastQuality.Null? && !b.morningMood.Null? && !b.screenTimeBeforeBed.Null? &&
    !b.caffeineIntake.Null? && !b.waterIntakeMl.Null?
  }

  /**
   * The update model has the bounds of the base model: an accepted update keeps
   * a valid routine valid and never moves its date. When nothing is sent as
   * `null`, this updated routine is exactly what merging the dumped row into the
   * stored columns gives.
   */
  lemma RoutineUpdateKeepsValid(m: RoutineCreate, b: RoutineBody)
    requires ValidRoutine(m) && ValidateRoutineUpdate(b).Accepted?
    ensures ValidRoutine(ApplyRoutineUpdate(m, b)) && ApplyRoutineUpdate(m, b).date == m.date
    ensures NoNullRoutineUpdate(b) ==> RoutineRowOf(m) + RoutineUpdateRow(b) == RoutineRowOf(ApplyRoutineUpdate(m, b))
  {
    if NoNullRoutineUpdate(b) {
      RoutineUpdateStored(m, b);
    }
  }

  /** Every key an update dumps is a column of the stored row. */
  lemma RoutineUpdateColumns(m: RoutineCreate, b: RoutineBody)
    ensures RoutineUpdateRow(b).Keys <= RoutineRowOf(m).Keys && "date" !in RoutineUpdateRow(b)
  {
    RoutineUpdateKeys(b);
    forall k | k in RoutineUpdateRow(b) ensures k in RoutineRowOf(m) {
      var i :| 0 <= i < |RoutineFields(b)| && RoutineFields(b)[i].name == k;
    }
  }

  lemma RoutineRowKeys(m: RoutineCreate, m': RoutineCreate)
    ensures RoutineRowOf(m).Keys == RoutineRowOf(m').Keys
  {
  }

  lemma RoutineUpdateStored(m: RoutineCreate, b: RoutineBody)
    requires NoNullRoutineUpdate(b)
    ensures RoutineRowOf(m) + RoutineUpdateRow(b) == RoutineRowOf(ApplyRoutineUpdate(m, b))
  {
    var row := RoutineUpdateRow(b);
    var l := RoutineRowOf(m) + row;
    var r := RoutineRowOf(ApplyRoutineUpdate(m, b));
    RoutineUpdateColumns(m, b);
    MergeKeys(RoutineRowOf(m), row);
    RoutineRowKeys(m, ApplyRoutineUpdate(m, b));
    RoutineMergedFirst(m, b);
    RoutineMergedMiddle(m, b);
    RoutineMergedLast(m, b);
    RoutineMergedDate(m, b);
    RoutineRowsAgree(l, r, m);
  }

  /** Two rows over the routine columns that agree column by column are the same row. */
  lemma RoutineRowsAgree(l: Row, r: Row, m: RoutineCreate)
    requires l.Keys == RoutineRowOf(m).Keys && r.Keys == RoutineRowOf(m).Keys
    requires l["date"] == r["date"] && l["wake_time"] == r["wake_time"] &&
             l["sleep_duration_hours"] == r["sleep_duration_hours"] && l["exercise_minutes"] == r["exercise_minutes"] &&
             l["meditation_minutes"] == r["meditation_minutes"] && l["breakfast_quality"] == r["breakfast_quality"] &&
             l["morning_mood"] == r["morning_mood"] && l["screen_time_before_bed"] == r["screen_time_before_bed"] &&
             l["caffeine_intake"] == r["caffeine_intake"] && l["water_intake_ml"] == r["water_intake_ml"]
    ensures l == r
  {
  }

  lemma RoutineMergedDate(m: RoutineCreate, b: RoutineBody)
    ensures (RoutineRowOf(m) + RoutineUpdateRow(b))["date"] == RoutineRowOf(ApplyRoutineUpdate(m, b))["date"]
  {
    RoutineUpdateColumns(m, b);
  }

  lemma RoutineMergedFirst(m: RoutineCreate, b: RoutineBody)
    requires NoNullRoutineUpdate(b)
    ensures var l := RoutineRowOf(m) + RoutineUpdateRow(b);
            var r := RoutineRowOf(ApplyRoutineUpdate(m, b));
            l["wake_time"] == r["wake_time"] &&
            l["sleep_duration_hours"] == r["sleep_duration_hours"] &&
            l["exercise_minutes"] == r["exercise_minutes"]
  {
    var row := RoutineUpdateRow(b);
    RoutineUpdateKeys(b);
    MergeColumn(RoutineRowOf(m), row, "wake_time", b.wakeTime, Str, m.wakeTime);
    MergeColumn(RoutineRowOf(m), row, "sleep_duration_hours", b.sleepHours, Real, m.sleepHours);
    MergeColumn(RoutineRowOf(m), row, "exercise_minutes", b.exerciseMinutes, Int, m.exerciseMinutes);
  }

  lemma RoutineMergedMiddle(m: RoutineCreate, b: RoutineBody)
    requires NoNullRoutineUpdate(b)
    ensures var l := RoutineRowOf(m) + RoutineUpdateRow(b);
            var r := RoutineRowOf(ApplyRoutineUpdate(m, b));
            l["meditation_minutes"] == r["meditation_minutes"] &&
            l["breakfast_quality"] == r["breakfast_quality"] &&
            l["morning_mood"] == r["morning_mood"]
  {
    var row := RoutineUpdateRow(b);
    RoutineUpdateKeys(b);
    MergeColumn(RoutineRowOf(m), row, "meditation_minutes", b.meditationMinutes, Int, m.meditationMinutes);
    MergeColumn(RoutineRowOf(m), row, "breakfast_quality", b.breakfastQuality, Str, m.breakfastQuality);
    MergeColumn(RoutineRowOf(m), row, "morning_mood", b.morningMood, Int, m.morningMood);
  }

  lemma RoutineMergedLast(m: RoutineCreate, b: RoutineBody)
    requires NoNullRoutineUpdate(b)
    ensures var l := RoutineRowOf(m) + RoutineUpdateRow(b);
            var r := RoutineRowOf(ApplyRoutineUpdate(m, b));
            l["screen_time_before_bed"] == r["screen_time_before_bed"] &&
            l["caffeine_intake"] == r["caffeine_intake"] &&
            l["water_intake_ml"] == r["water_intake_ml"]
  {
    var row := RoutineUpdateRow(b);
    RoutineUpdateKeys(b);
    MergeColumn(RoutineRowOf(m), row, "screen_time_before_bed", b.screenTimeBeforeBed, Int, m.screenTimeBeforeBed);
    MergeColumn(RoutineRowOf(m), row, "caffeine_intake", b.caffeineIntake, Int, m.caffeineIntake);
    MergeColumn(RoutineRowOf(m), row, "water_intake_ml", b.waterIntakeMl, Int, m.waterIntakeMl);
  }

  /**
   * A `null` sent for a column the base model requires is accepted and written:
   * the merged row holds `VNull` there, which no stored routine holds.
   */
  lemma RoutineUpdateNullMood(m: RoutineCreate)
    ensures var b := RoutineBody(Unset, Unset, Unset, Unset, Unset, Unset, Null, Unset, Unset, Unset);
            ValidateRoutineUpdate(b) == Accepted(map["morning_mood" := VNull]) &&
            (RoutineRowOf(m) + RoutineUpdateRow(b))["morning_mood"] == VNull &&
            RoutineRowOf(m)["morning_mood"] != VNull
  {
  }

  /** The routine columns are distinct, and `date` is not among them. */
  lemma RoutineFieldNames(b: RoutineBody)
    ensures DistinctNames(RoutineFields(b))
    ensures forall i | 0 <= i < |RoutineFields(b)| :: RoutineFields(b)[i].name != "date"
  {
  }

  /** An update dumps exactly the keys that were sent, each as it was sent, and never `date`. */
  lemma RoutineUpdateKeys(b: RoutineBody)
    ensures var row := RoutineUpdateRow(b);
            "date" !in row &&
            (forall k | k in row :: exists i :: 0 <= i < |RoutineFields(b)| && RoutineFields(b)[i].name == k) &&
            Dumped(row, "wake_time", b.wakeTime, Str) &&
            Dumped(row, "sleep_duration_hours", b.sleepHours, Real) &&
            Dumped(row, "exercise_minutes", b.exerciseMinutes, Int) &&
            Dumped(row, "meditation_minutes", b.meditationMinutes, Int) &&
            Dumped(row, "breakfast_quality", b.breakfastQuality, Str) &&
            Dumped(row, "morning_mood", b.morningMood, Int) &&
            Dumped(row, "screen_time_before_bed", b.screenTimeBeforeBed, Int) &&
            Dumped(row, "caffeine_intake", b.caffeineIntake, Int) &&
            Dumped(row, "water_intake_ml", b.waterIntakeMl, Int)
  {
    var fs := RoutineFields(b);
    RoutineFieldNames(b);
    DumpRecords(fs);
    assert Recorded(Dump(fs), fs[0]) && Recorded(Dump(fs), fs[1]) && Recorded(Dump(fs), fs[2]);
    assert Recorded(Dump(fs), fs[3]) && Recorded(Dump(fs), fs[4]) && Recorded(Dump(fs), fs[5]);
    assert Recorded(Dump(fs), fs[6]) && Recorded(Dump(fs), fs[7]) && Recorded(Dump(fs), fs[8]);
  }

  /** The update ignores a `date` key, whatever it holds. */
  lemma RoutineUpdateIgnoresDate(b: RoutineBody, date: Sent<string>)
    ensures ValidateRoutineUpdate(b.(date := date)) == ValidateRoutineUpdate(b)
  {
  }

  /** A body with only the required fields. */
  function MinimalRoutine(date: string, wakeTime: string, sleep: real, mood: int): RoutineBody {
    RoutineBody(Given(date), Given(wakeTime), Given(sleep), Unset, Unset, Unset, Given(mood), Unset, Unset, Unset)
  }

  /** The counts default to 0 and breakfast to good; `wake_time` is any text. */
  lemma RoutineDefaults(date: string, wakeTime: string, sleep: real, mood: int)
    requires 0.0 <= sleep <= 24.0 && 1 <= mood <= 10
    ensures ValidateRoutine(MinimalRoutine(date, wakeTime, sleep, mood)) ==
            Accepted(RoutineCreate(date, wakeTime, sleep, 0, 0, "good", mood, 0, 0, 0))
  {
  }

  /** `morning_mood` must lie in [1, 10], and the error names it. */
  lemma RoutineMoodBounds(mood: int)
    ensures var r := ValidateRoutine(MinimalRoutine("2024-01-15", "07:00", 8.0, mood));
            (r.Accepted? <==> 1 <= mood <= 10) && (r.Rejected? ==> r.fields == {"morning_mood"})
  {
  }

  /** `sleep_duration_hours` must lie in [0, 24], both ends included. */
  lemma RoutineSleepBounds(sleep: real)
    ensures var r := ValidateRoutine(MinimalRoutine("2024-01-15", "07:00", sleep, 7));
            (r.Accepted? <==> 0.0 <= sleep <= 24.0) && (r.Rejected? ==> r.fields == {"sleep_duration_hours"})
  {
  }

  /** A negative exercise count is rejected for that field. */
  lemma RoutineExerciseNonNegative(minutes: int)
    ensures var r := ValidateRoutine(MinimalRoutine("2024-01-15", "07:00", 8.0, 7).(exerciseMinutes := Given(minutes)));
            (r.Accepted? <==> minutes >= 0) && (r.Rejected? ==> r.fields == {"exercise_minutes"})
  {
  }

  /** `breakfast_quality` is one of the four literals, and `null` is not allowed for it. */
  lemma BreakfastQualityLiterals(quality: string)
    ensures var r := ValidateRoutine(MinimalRoutine("2024-01-15", "07:00", 8.0, 7).(breakfastQuality := Given(quality)));
            (r.Accepted? <==> quality in {"poor", "fair", "good", "excellent"}) &&
            (r.Accepted? ==> r.value.breakfastQuality == quality) &&
            (r.Rejected? ==> r.fields == {"breakfast_quality"})
    ensures ValidateRoutine(MinimalRoutine("2024-01-15", "07:00", 8.0, 7).(breakfastQuality := Null)) ==
            Rejected({"breakfast_quality"})
  {
  }

  /** A routine without its mood is rejected for that field alone. */
  lemma RoutineNeedsMood()
    ensures ValidateRoutine(MinimalRoutine("2024-01-15", "07:00", 8.0, 7).(morningMood := Unset)) ==
            Rejected({"morning_mood"})
  {
  }

  // ------------------------------------------------------------------
  // Productivity entry
  // ------------------------------------------------------------------

  datatype ProductivityBody = ProductivityBody(
    date: Sent<string>, routineId: Sent<string>, productivityScore: Sent<int>, tasksCompleted: Sent<int>,
    tasksPlanned: Sent<int>, focusHours: Sent<real>, distractionsCount: Sent<int>, energyLevel: Sent<int>,
    stressLevel: Sent<int>, notes: Sent<string>)

  /** `ProductivityCreate`. */
  datatype ProductivityCreate = ProductivityCreate(
    date: string, routineId: Option<string>, productivityScore: int, tasksCompleted: int, tasksPlanned: int,
    focusHours: real, distractionsCount: int, energyLevel: int, stressLevel: int, notes: Option<string>)

  /** The bounds `ProductivityBase` puts on an entry; none relates the two task counts. */
  predicate ValidProductivity(m: ProductivityCreate) {
    OneToTen(m.productivityScore) && NonNegative(m.tasksCompleted) && NonNegative(m.tasksPlanned) &&
    NonNegativeReal(m.focusHours) && NonNegative(m.distractionsCount) && OneToTen(m.energyLevel) &&
    OneToTen(m.stressLevel)
  }

  function ProductivityErrors(b: ProductivityBody): set<string> {
    Required(b.date, AnyText, "date") + Nullable(b.routineId, AnyText, "routine_id") +
    Required(b.productivityScore, OneToTen, "productivity_score") +
    Defaulted(b.tasksCompleted, NonNegative, "tasks_completed") +
    Defaulted(b.tasksPlanned, NonNegative, "tasks_planned") +
    Defaulted(b.focusHours, NonNegativeReal, "focus_hours") +
    Defaulted(b.distractionsCount, NonNegative, "distractions_count") +
    Required(b.energyLevel, OneToTen, "energy_level") + Required(b.stressLevel, OneToTen, "stress_level") +
    Nullable(b.notes, AnyText, "notes")
  }

  /** `ProductivityCreate(**body)`. */
  function ValidateProductivity(b: ProductivityBody): (r: Checked<ProductivityCreate>)
    ensures r.Accepted? ==> (ValidProductivity(r.value) &&
              b.date == Given(r.value.date) && b.productivityScore == Given(r.value.productivityScore) &&
              b.energyLevel == Given(r.value.energyLevel) && b.stressLevel == Given(r.value.stressLevel) &&
              r.value.routineId == OrNone(b.routineId) && r.value.notes == OrNone(b.notes) &&
              r.value.tasksCompleted == OrDefault(b.tasksCompleted, 0) &&
              r.value.tasksPlanned == OrDefault(b.tasksPlanned, 0) &&
              r.value.focusHours == OrDefault(b.focusHours, 0.0) &&
              r.value.distractionsCount == OrDefault(b.distractionsCount, 0))
    ensures r.Rejected? ==> r.fields != {}
  {
    var errors := ProductivityErrors(b);
    if errors != {} then Rejected(errors)
    else
      Accepted(ProductivityCreate(
        b.date.v, OrNone(b.routineId), b.productivityScore.v, OrDefault(b.tasksCompleted, 0),
        OrDefault(b.tasksPlanned, 0), OrDefault(b.focusHours, 0.0), OrDefault(b.distractionsCount, 0),
        b.energyLevel.v, b.stressLevel.v, OrNone(b.notes)))
  }

  function ProductivityBodyOf(m: ProductivityCreate): ProductivityBody {
    ProductivityBody(Given(m.date), if m.routineId.Some? then Given(m.routineId.value) else Null,
                     Given(m.productivityScore), Given(m.tasksCompleted), Given(m.tasksPlanned),
                     Given(m.focusHours), Given(m.distractionsCount), Given(m.energyLevel),
                     Given(m.stressLevel), if m.notes.Some? then Given(m.notes.value) else Null)
  }

  /** Validating the dump of a valid entry gives it back, and only valid entries come back. */
  lemma ProductivityRoundTrip(m: ProductivityCreate)
    ensures ValidateProductivity(ProductivityBodyOf(m)) == Accepted(m) <==> ValidProductivity(m)
  {
  }

  /** `ProductivityUpdate(**body).model_dump(exclude_unset=True)`; `date` and `routine_id` are not its fields. */
  function ValidateProductivityUpdate(b: ProductivityBody): (r: Checked<Row>)
    ensures r.Rejected? ==> r.fields != {}
  {
    var errors :=
      Nullable(b.productivityScore, OneToTen, "productivity_score") +
      Nullable(b.tasksCompleted, NonNegative, "tasks_completed") +
      Nullable(b.tasksPlanned, NonNegative, "tasks_planned") +
      Nullable(b.focusHours, NonNegativeReal, "focus_hours") +
      Nullable(b.distractionsCount, NonNegative, "distractions_count") +
      Nullable(b.energyLevel, OneToTen, "energy_level") +
      Nullable(b.stressLevel, OneToTen, "stress_level");
    if errors != {} then Rejected(errors) else Accepted(ProductivityUpdateRow(b))
  }

  /** `model_dump(exclude_unset=True)` of a productivity update: the keys that were sent, `null` as `VNull`. */
  function ProductivityUpdateRow(b: ProductivityBody): Row {
    Dump(ProductivityFields(b))
  }

  /** The fields of a productivity body, with their columns. */
  function ProductivityFields(b: ProductivityBody): seq<Field> {
    [Field("productivity_score", Lift(b.productivityScore, Int)),
     Field("tasks_completed", Lift(b.tasksCompleted, Int)),
     Field("tasks_planned", Lift(b.tasksPlanned, Int)),
     Field("focus_hours", Lift(b.focusHours, Real)),
     Field("distractions_count", Lift(b.distractionsCount, Int)),
     Field("energy_level", Lift(b.energyLevel, Int)),
     Field("stress_level", Lift(b.stressLevel, Int)),
     Field("notes", Lift(b.notes, Str))]
  }

  function ApplyProductivityUpdate(m: ProductivityCreate, b: ProductivityBody): ProductivityCreate {
    m.(productivityScore := OrDefault(b.productivityScore, m.productivityScore),
       tasksCompleted := OrDefault(b.tasksCompleted, m.tasksCompleted),
       tasksPlanned := OrDefault(b.tasksPlanned, m.tasksPlanned),
       focusHours := OrDefault(b.focusHours, m.focusHours),
       distractionsCount := OrDefault(b.distractionsCount, m.distractionsCount),
       energyLevel := OrDefault(b.energyLevel, m.energyLevel),
       stressLevel := OrDefault(b.stressLevel, m.stressLevel),
       notes := if b.notes.Given? then Some(b.notes.v) else if b.notes.Null? then None else m.notes)
  }

  /** A nullable column: `VNull` for `None`. */
  function OptStr(o: Option<string>): Value {
    if o.Some? then VStr(o.value) else VNull
  }

  /** The columns of a stored productivity entry, as the services write them. */
  function ProductivityRowOf(m: ProductivityCreate): Row {
    map["date" := Str(m.date), "routine_id" := OptStr(m.routineId),
        "productivity_score" := Int(m.productivityScore), "tasks_completed" := Int(m.tasksCompleted),
        "tasks_planned" := Int(m.tasksPlanned), "focus_hours" := Real(m.focusHours),
        "distractions_count" := Int(m.distractionsCount), "energy_level" := Int(m.energyLevel),
        "stress_level" := Int(m.stressLevel), "notes" := OptStr(m.notes)]
  }

  /** No field the base model requires non-null is sent as `null` (`notes` may be). */
  predicate NoNullProductivityUpdate(b: ProductivityBody) {
    !b.productivityScore.Null? && !b.tasksCompleted.Null? && !b.tasksPlanned.Null? && !b.focusHours.Null? &&
    !b.distractionsCount.Null? && !b.energyLevel.Null? && !b.stressLevel.Null?
  }

  /**
   * An accepted update keeps a valid entry valid, and never moves its date or
   * routine. When no non-nullable field is sent as `null`, this updated entry is
   * exactly what merging the dumped row into the stored columns gives.
   */
  lemma ProductivityUpdateKeepsValid(m: ProductivityCreate, b: ProductivityBody)
    requires ValidProductivity(m) && ValidateProductivityUpdate(b).Accepted?
    ensures var m' := ApplyProductivityUpdate(m, b);
            ValidProductivity(m') && m'.date == m.date && m'.routineId == m.routineId
    ensures NoNullProductivityUpdate(b) ==>
              ProductivityRowOf(m) + ProductivityUpdateRow(b) == ProductivityRowOf(ApplyProductivityUpdate(m, b))
  {
    if NoNullProductivityUpdate(b) {
      ProductivityUpdateStored(m, b);
    }
  }

  /** Every key an update dumps is a column of the stored row. */
  lemma ProductivityUpdateColumns(m: ProductivityCreate, b: ProductivityBody)
    ensures ProductivityUpdateRow(b).Keys <= ProductivityRowOf(m).Keys
    ensures "date" !in ProductivityUpdateRow(b) && "routine_id" !in ProductivityUpdateRow(b)
  {
    ProductivityUpdateKeys(b);
    forall k | k in ProductivityUpdateRow(b) ensures k in ProductivityRowOf(m) {
      var i :| 0 <= i < |ProductivityFields(b)| && ProductivityFields(b)[i].name == k;
    }
  }

  lemma ProductivityRowKeys(m: ProductivityCreate, m': ProductivityCreate)
    ensures ProductivityRowOf(m).Keys == ProductivityRowOf(m').Keys
  {
  }

  lemma ProductivityUpdateStored(m: ProductivityCreate, b: ProductivityBody)
    requires NoNullProductivityUpdate(b)
    ensures ProductivityRowOf(m) + ProductivityUpdateRow(b) == ProductivityRowOf(ApplyProductivityUpdate(m, b))
  {
    var row := ProductivityUpdateRow(b);
    var l := ProductivityRowOf(m) + row;
    var r := ProductivityRowOf(ApplyProductivityUpdate(m, b));
    ProductivityUpdateColumns(m, b);
    MergeKeys(ProductivityRowOf(m), row);
    ProductivityRowKeys(m, ApplyProductivityUpdate(m, b));
    ProductivityMergedFirst(m, b);
    ProductivityMergedMiddle(m, b);
    ProductivityMergedLast(m, b);
    ProductivityMergedDate(m, b);
    ProductivityRowsAgree(l, r, m);
  }

  /** Two rows over the productivity columns that agree column by column are the same row. */
  lemma ProductivityRowsAgree(l: Row, r: Row, m: ProductivityCreate)
    requires l.Keys == ProductivityRowOf(m).Keys && r.Keys == ProductivityRowOf(m).Keys
    requires l["date"] == r["date"] && l["routine_id"] == r["routine_id"] &&
             l["productivity_score"] == r["productivity_score"] && l["tasks_completed"] == r["tasks_completed"] &&
             l["tasks_planned"] == r["tasks_planned"] && l["focus_hours"] == r["focus_hours"] &&
             l["distractions_count"] == r["distractions_count"] && l["energy_level"] == r["energy_level"] &&
             l["stress_level"] == r["stress_level"] && l["notes"] == r["notes"]
    ensures l == r
  {
  }

  lemma ProductivityMergedDate(m: ProductivityCreate, b: ProductivityBody)
    ensures var l := ProductivityRowOf(m) + ProductivityUpdateRow(b);
            var r := ProductivityRowOf(ApplyProductivityUpdate(m, b));
            l["date"] == r["date"] && l["routine_id"] == r["routine_id"]
  {
    ProductivityUpdateColumns(m, b);
  }

  lemma ProductivityMergedFirst(m: ProductivityCreate, b: ProductivityBody)
    requires NoNullProductivityUpdate(b)
    ensures var l := ProductivityRowOf(m) + ProductivityUpdateRow(b);
            var r := ProductivityRowOf(ApplyProductivityUpdate(m, b));
            l["productivity_score"] == r["productivity_score"] &&
            l["tasks_completed"] == r["tasks_completed"] &&
            l["tasks_planned"] == r["tasks_planned"]
  {
    var row := ProductivityUpdateRow(b);
    ProductivityUpdateKeys(b);
    MergeColumn(ProductivityRowOf(m), row, "productivity_score", b.productivityScore, Int, m.productivityScore);
    MergeColumn(ProductivityRowOf(m), row, "tasks_completed", b.tasksCompleted, Int, m.tasksCompleted);
    MergeColumn(ProductivityRowOf(m), row, "tasks_planned", b.tasksPlanned, Int, m.tasksPlanned);
  }

  lemma ProductivityMergedMiddle(m: ProductivityCreate, b: ProductivityBody)
    requires NoNullProductivityUpdate(b)
    ensures var l := ProductivityRowOf(m) + ProductivityUpdateRow(b);
            var r := ProductivityRowOf(ApplyProductivityUpdate(m, b));
            l["focus_hours"] == r["focus_hours"] &&
            l["distractions_count"] == r["distractions_count"] &&
            l["energy_level"] == r["energy_level"]
  {
    var row := ProductivityUpdateRow(b);
    ProductivityUpdateKeys(b);
    MergeColumn(ProductivityRowOf(m), row, "focus_hours", b.focusHours, Real, m.focusHours);
    MergeColumn(ProductivityRowOf(m), row, "distractions_count", b.distractionsCount, Int, m.distractionsCount);
    MergeColumn(ProductivityRowOf(m), row, "energy_level", b.energyLevel, Int, m.energyLevel);
  }

  lemma ProductivityMergedLast(m: ProductivityCreate, b: ProductivityBody)
    requires NoNullProductivityUpdate(b)
    ensures var l := ProductivityRowOf(m) + ProductivityUpdateRow(b);
            var r := ProductivityRowOf(ApplyProductivityUpdate(m, b));
            l["stress_level"] == r["stress_level"] && l["notes"] == r["notes"]
  {
    var row := ProductivityUpdateRow(b);
    ProductivityUpdateKeys(b);
    MergeColumn(ProductivityRowOf(m), row, "stress_level", b.stressLevel, Int, m.stressLevel);
  }

  /** A `null` score is accepted and written as `VNull`, which no stored entry holds. */
  lemma ProductivityUpdateNullScore(m: ProductivityCreate)
    ensures var b := ProductivityBody(Unset, Unset, Null, Unset, Unset, Unset, Unset, Unset, Unset, Unset);
            ValidateProductivityUpdate(b) == Accepted(map["productivity_score" := VNull]) &&
            (ProductivityRowOf(m) + ProductivityUpdateRow(b))["productivity_score"] == VNull &&
            ProductivityRowOf(m)["productivity_score"] != VNull
  {
  }

  /** The productivity columns are distinct, and neither `date` nor `routine_id` is among them. */
  lemma ProductivityFieldNames(b: ProductivityBody)
    ensures DistinctNames(ProductivityFields(b))
    ensures forall i | 0 <= i < |ProductivityFields(b)| ::
              ProductivityFields(b)[i].name != "date" && ProductivityFields(b)[i].name != "routine_id"
  {
  }

  /** An update dumps exactly the keys that were sent, each as it was sent, and never `date` or `routine_id`. */
  lemma ProductivityUpdateKeys(b: ProductivityBody)
    ensures var row := ProductivityUpdateRow(b);
            "date" !in row && "routine_id" !in row &&
            (forall k | k in row :: exists i :: 0 <= i < |ProductivityFields(b)| && ProductivityFields(b)[i].name == k) &&
            Dumped(row, "productivity_score", b.productivityScore, Int) &&
            Dumped(row, "tasks_completed", b.tasksCompleted, Int) &&
            Dumped(row, "tasks_planned", b.tasksPlanned, Int) &&
            Dumped(row, "focus_hours", b.focusHours, Real) &&
            Dumped(row, "distractions_count", b.distractionsCount, Int) &&
            Dumped(row, "energy_level", b.energyLevel, Int) &&
            Dumped(row, "stress_level", b.stressLevel, Int) &&
            Dumped(row, "notes", b.notes, Str)
  {
    var fs := ProductivityFields(b);
    ProductivityFieldNames(b);
    DumpRecords(fs);
    assert Recorded(Dump(fs), fs[0]) && Recorded(Dump(fs), fs[1]) && Recorded(Dump(fs), fs[2]);
    assert Recorded(Dump(fs), fs[3]) && Recorded(Dump(fs), fs[4]) && Recorded(Dump(fs), fs[5]);
    assert Recorded(Dump(fs), fs[6]) && Recorded(Dump(fs), fs[7]);
  }

  function MinimalProductivity(score: int, energy: int, stress: int): ProductivityBody {
    ProductivityBody(Given("2024-01-15"), Unset, Given(score), Unset, Unset, Unset, Unset, Given(energy),
                     Given(stress), Unset)
  }

  /** The counts and hours default to 0, the routine link and the notes to `None`. */
  lemma ProductivityDefaults(score: int, energy: int, stress: int)
    requires 1 <= score <= 10 && 1 <= energy <= 10 && 1 <= stress <= 10
    ensures ValidateProductivity(MinimalProductivity(score, energy, stress)) ==
            Accepted(ProductivityCreate("2024-01-15", None, score, 0, 0, 0.0, 0, energy, stress, None))
  {
  }

  /** The three levels must lie in [1, 10], both ends included, and each error names its field. */
  lemma ProductivityLevelBounds(level: int)
    ensures var r := ValidateProductivity(MinimalProductivity(level, 6, 5));
            (r.Accepted? <==> 1 <= level <= 10) && (r.Rejected? ==> r.fields == {"productivity_score"})
    ensures var r := ValidateProductivity(MinimalProductivity(7, level, 5));
            (r.Accepted? <==> 1 <= level <= 10) && (r.Rejected? ==> r.fields == {"energy_level"})
    ensures var r := ValidateProductivity(MinimalProductivity(7, 6, level));
            (r.Accepted? <==> 1 <= level <= 10) && (r.Rejected? ==> r.fields == {"stress_level"})
  {
  }

  /** Negative task counts and focus hours are rejected for their field. */
  lemma ProductivityCountsNonNegative(count: int, hours: real)
    ensures var r := ValidateProductivity(MinimalProductivity(7, 6, 5).(tasksCompleted := Given(count)));
            (r.Accepted? <==> count >= 0) && (r.Rejected? ==> r.fields == {"tasks_completed"})
    ensures var r := ValidateProductivity(MinimalProductivity(7, 6, 5).(focusHours := Given(hours)));
            (r.Accepted? <==> hours >= 0.0) && (r.Rejected? ==> r.fields == {"focus_hours"})
  {
  }

  /** Nothing ties `tasks_completed` to `tasks_planned`: more done than planned is accepted. */
  lemma MoreCompletedThanPlanned()
    ensures ValidateProductivity(MinimalProductivity(7, 6, 5).(tasksCompleted := Given(5), tasksPlanned := Given(0))).Accepted?
  {
  }

  // ------------------------------------------------------------------
  // User profile
  // ------------------------------------------------------------------

  datatype ProfileBody = ProfileBody(
    fullName: Sent<string>, displayName: Sent<string>, avatarUrl: Sent<string>, dateOfBirth: Sent<string>,
    gender: Sent<string>, timezone: Sent<string>, locale: Sent<string>, bio: Sent<string>,
    occupation: Sent<string>, onboardingCompleted: Sent<bool>)

  /** `UserProfileBase`. */
  datatype Profile = Profile(
    fullName: Option<string>, displayName: Option<string>, avatarUrl: Option<string>,
    dateOfBirth: Option<string>, gender: Option<string>, timezone: string, locale: string,
    bio: Option<string>, occupation: Option<string>)

  predicate ValidProfile(m: Profile) {
    (m.fullName.Some? ==> Text100(m.fullName.value)) &&
    (m.displayName.Some? ==> Text50(m.displayName.value)) &&
    (m.gender.Some? ==> IsGender(m.gender.value)) &&
    Text50(m.timezone) && Text10(m.locale) &&
    (m.occupation.Some? ==> Text100(m.occupation.value))
  }

  function ProfileErrors(b: ProfileBody): set<string> {
    Nullable(b.fullName, Text100, "full_name") +
    Nullable(b.displayName, Text50, "display_name") +
    Nullable(b.gender, IsGender, "gender") +
    Defaulted(b.timezone, Text50, "timezone") +
    Defaulted(b.locale, Text10, "locale") +
    Nullable(b.occupation, Text100, "occupation")
  }

  /** `UserProfileBase(**body)`; `onboarding_completed` is not one of its fields. */
  function ValidateProfile(b: ProfileBody): (r: Checked<Profile>)
    ensures r.Accepted? ==> (ValidProfile(r.value) &&
              r.value.timezone == OrDefault(b.timezone, "UTC") && r.value.locale == OrDefault(b.locale, "en-US") &&
              r.value.fullName == OrNone(b.fullName) && r.value.displayName == OrNone(b.displayName) &&
              r.value.avatarUrl == OrNone(b.avatarUrl) && r.value.dateOfBirth == OrNone(b.dateOfBirth) &&
              r.value.gender == OrNone(b.gender) && r.value.bio == OrNone(b.bio) &&
              r.value.occupation == OrNone(b.occupation))
    ensures r.Rejected? ==> r.fields != {}
  {
    var errors := ProfileErrors(b);
    if errors != {} then Rejected(errors)
    else
      Accepted(Profile(OrNone(b.fullName), OrNone(b.displayName), OrNone(b.avatarUrl), OrNone(b.dateOfBirth),
                       OrNone(b.gender), OrDefault(b.timezone, "UTC"), OrDefault(b.locale, "en-US"),
                       OrNone(b.bio), OrNone(b.occupation)))
  }

  /** `UserProfileUpdate(**body).model_dump(exclude_unset=True)`: the same bounds, every field optional, plus `onboarding_completed`. */
  function ValidateProfileUpdate(b: ProfileBody): (r: Checked<Row>)
    ensures r.Rejected? ==> r.fields != {}
  {
    var errors :=
      Nullable(b.fullName, Text100, "full_name") +
      Nullable(b.displayName, Text50, "display_name") +
      Nullable(b.gender, IsGender, "gender") +
      Nullable(b.timezone, Text50, "timezone") +
      Nullable(b.locale, Text10, "locale") +
      Nullable(b.occupation, Text100, "occupation");
    if errors != {} then Rejected(errors) else Accepted(ProfileUpdateRow(b))
  }

  /** `model_dump(exclude_unset=True)` of a profile update: the keys that were sent, `null` as `VNull`. */
  function ProfileUpdateRow(b: ProfileBody): Row {
    Dump(ProfileFields(b))
  }

  /** The fields of a profile body, with their columns. */
  function ProfileFields(b: ProfileBody): seq<Field> {
    [Field("full_name", Lift(b.fullName, Str)),
     Field("display_name", Lift(b.displayName, Str)),
     Field("avatar_url", Lift(b.avatarUrl, Str)),
     Field("date_of_birth", Lift(b.dateOfBirth, Date)),
     Field("gender", Lift(b.gender, Str)),
     Field("timezone", Lift(b.timezone, Str)),
     Field("locale", Lift(b.locale, Str)),
     Field("bio", Lift(b.bio, Str)),
     Field("occupation", Lift(b.occupation, Str)),
     Field("onboarding_completed", Lift(b.onboardingCompleted, Bool))]
  }

  const EmptyProfile := ProfileBody(Unset, Unset, Unset, Unset, Unset, Unset, Unset, Unset, Unset, Unset)

  /** An empty profile is valid: time zone UTC, locale en-US, every optional field `None`. */
  lemma ProfileDefaults()
    ensures ValidateProfile(EmptyProfile) ==
            Accepted(Profile(None, None, None, None, None, "UTC", "en-US", None, None))
  {
  }

  /** Each text field is accepted exactly up to its `max_length`, in the profile and in its update. */
  lemma ProfileLengthLimits(text: string)
    ensures ValidateProfile(EmptyProfile.(fullName := Given(text))).Accepted? <==> |text| <= 100
    ensures ValidateProfile(EmptyProfile.(displayName := Given(text))).Accepted? <==> |text| <= 50
    ensures ValidateProfile(EmptyProfile.(timezone := Given(text))).Accepted? <==> |text| <= 50
    ensures ValidateProfile(EmptyProfile.(locale := Given(text))).Accepted? <==> |text| <= 10
    ensures ValidateProfile(EmptyProfile.(occupation := Given(text))).Accepted? <==> |text| <= 100
    ensures ValidateProfileUpdate(EmptyProfile.(fullName := Given(text))).Accepted? <==> |text| <= 100
    ensures ValidateProfileUpdate(EmptyProfile.(displayName := Given(text))).Accepted? <==> |text| <= 50
    ensures ValidateProfileUpdate(EmptyProfile.(timezone := Given(text))).Accepted? <==> |text| <= 50
    ensures ValidateProfileUpdate(EmptyProfile.(locale := Given(text))).Accepted? <==> |text| <= 10
    ensures ValidateProfileUpdate(EmptyProfile.(occupation := Given(text))).Accepted? <==> |text| <= 100
  {
  }

  /** `gender` is one of four literals or `None`. */
  lemma GenderLiterals(gender: string)
    ensures ValidateProfile(EmptyProfile.(gender := Given(gender))).Accepted? <==>
            gender in {"male", "female", "non_binary", "prefer_not_to_say"}
    ensures ValidateProfile(EmptyProfile.(gender := Null)).Accepted?
  {
  }

  /** The update accepts `null` for the time zone, which the base model does not. */
  lemma ProfileUpdateClearsTimezone()
    ensures ValidateProfile(EmptyProfile.(timezone := Null)) == Rejected({"timezone"})
    ensures ValidateProfileUpdate(EmptyProfile.(timezone := Null)) == Accepted(map["timezone" := VNull])
  {
  }

  // ------------------------------------------------------------------
  // User settings
  // ------------------------------------------------------------------

  datatype SettingsBody = SettingsBody(
    theme: Sent<string>, accentColor: Sent<string>, compactMode: Sent<bool>,
    emailNotifications: Sent<bool>, pushNotifications: Sent<bool>, weeklySummaryEmail: Sent<bool>,
    reminderTime: Sent<string>,
    profileVisibility: Sent<string>, showStreakPublicly: Sent<bool>, allowDataAnalytics: Sent<bool>,
    defaultDateRange: Sent<int>, defaultChartType: Sent<string>, showWeekendMarkers: Sent<bool>,
    startWeekOn: Sent<string>,
    timeFormat: Sent<string>, dateFormat: Sent<string>, measurementSystem: Sent<string>)

  /** `UserSettingsBase`. */
  datatype Settings = Settings(
    theme: string, accentColor: string, compactMode: bool,
    emailNotifications: bool, pushNotifications: bool, weeklySummaryEmail: bool, reminderTime: string,
    profileVisibility: string, showStreakPublicly: bool, allowDataAnalytics: bool,
    defaultDateRange: int, defaultChartType: string, showWeekendMarkers: bool, startWeekOn: string,
    timeFormat: string, dateFormat: string, measurementSystem: string)

  predicate ValidSettings(m: Settings) {
    IsTheme(m.theme) && Text20(m.accentColor) && IsVisibility(m.profileVisibility) &&
    DateRange(m.defaultDateRange) && IsChartType(m.defaultChartType) && IsWeekStart(m.startWeekOn) &&
    IsTimeFormat(m.timeFormat) && Text20(m.dateFormat) && IsMeasurementSystem(m.measurementSystem)
  }

  /** A settings field of the base model (`optional` false) or of the update model (`optional` true). */
  function SettingsField<T>(optional: bool, s: Sent<T>, ok: T -> bool, name: string): set<string> {
    if optional then Nullable(s, ok, name) else Defaulted(s, ok, name)
  }

  /** The settings fields that fail. */
  function SettingsErrors(b: SettingsBody, optional: bool): set<string> {
    SettingsField(optional, b.theme, IsTheme, "theme") +
    SettingsField(optional, b.accentColor, Text20, "accent_color") +
    SettingsField(optional, b.compactMode, AnyBool, "compact_mode") +
    SettingsField(optional, b.emailNotifications, AnyBool, "email_notifications") +
    SettingsField(optional, b.pushNotifications, AnyBool, "push_notifications") +
    SettingsField(optional, b.weeklySummaryEmail, AnyBool, "weekly_summary_email") +
    SettingsField(optional, b.reminderTime, AnyText, "reminder_time") +
    SettingsField(optional, b.profileVisibility, IsVisibility, "profile_visibility") +
    SettingsField(optional, b.showStreakPublicly, AnyBool, "show_streak_publicly") +
    SettingsField(optional, b.allowDataAnalytics, AnyBool, "allow_data_analytics") +
    SettingsField(optional, b.defaultDateRange, DateRange, "default_date_range") +
    SettingsField(optional, b.defaultChartType, IsChartType, "default_chart_type") +
    SettingsField(optional, b.showWeekendMarkers, AnyBool, "show_weekend_markers") +
    SettingsField(optional, b.startWeekOn, IsWeekStart, "start_week_on") +
    SettingsField(optional, b.timeFormat, IsTimeFormat, "time_format") +
    SettingsField(optional, b.dateFormat, Text20, "date_format") +
    SettingsField(optional, b.measurementSystem, IsMeasurementSystem, "measurement_system")
  }

  /** `UserSettingsBase(**body)`. */
  function ValidateSettings(b: SettingsBody): (r: Checked<Settings>)
    ensures r.Accepted? ==> (ValidSettings(r.value) &&
              r.value.theme == OrDefault(b.theme, "system") && r.value.accentColor == OrDefault(b.accentColor, "blue") &&
              r.value.compactMode == OrDefault(b.compactMode, false) &&
              r.value.emailNotifications == OrDefault(b.emailNotifications, true) &&
              r.value.pushNotifications == OrDefault(b.pushNotifications, true) &&
              r.value.weeklySummaryEmail == OrDefault(b.weeklySummaryEmail, true) &&
              r.value.reminderTime == OrDefault(b.reminderTime, "07:00:00") &&
              r.value.profileVisibility == OrDefault(b.profileVisibility, "private") &&
              r.value.showStreakPublicly == OrDefault(b.showStreakPublicly, false) &&
              r.value.allowDataAnalytics == OrDefault(b.allowDataAnalytics, true) &&
              r.value.defaultDateRange == OrDefault(b.defaultDateRange, 30) &&
              r.value.defaultChartType == OrDefault(b.defaultChartType, "line") &&
              r.value.showWeekendMarkers == OrDefault(b.showWeekendMarkers, true) &&
              r.value.startWeekOn == OrDefault(b.startWeekOn, "monday") &&
              r.value.timeFormat == OrDefault(b.timeFormat, "24h") &&
              r.value.dateFormat == OrDefault(b.dateFormat, "YYYY-MM-DD") &&
              r.value.measurementSystem == OrDefault(b.measurementSystem, "metric"))
    ensures r.Rejected? ==> r.fields != {}
  {
    var errors := SettingsErrors(b, false);
    if errors != {} then Rejected(errors)
    else
      SettingsOfValid(b);
      Accepted(SettingsOf(b))
  }

  /** The settings record of a body: every field sent, or its default. */
  function SettingsOf(b: SettingsBody): Settings {
    Settings(
      OrDefault(b.theme, "system"), OrDefault(b.accentColor, "blue"), OrDefault(b.compactMode, false),
      OrDefault(b.emailNotifications, true), OrDefault(b.pushNotifications, true),
      OrDefault(b.weeklySummaryEmail, true), OrDefault(b.reminderTime, "07:00:00"),
      OrDefault(b.profileVisibility, "private"), OrDefault(b.showStreakPublicly, false),
      OrDefault(b.allowDataAnalytics, true), OrDefault(b.defaultDateRange, 30),
      OrDefault(b.defaultChartType, "line"), OrDefault(b.showWeekendMarkers, true),
      OrDefault(b.startWeekOn, "monday"), OrDefault(b.timeFormat, "24h"),
      OrDefault(b.dateFormat, "YYYY-MM-DD"), OrDefault(b.measurementSystem, "metric"))
  }

  /** A body the base model accepts gives valid settings: each checked field passes or takes a valid default. */
  lemma SettingsOfValid(b: SettingsBody)
    requires SettingsErrors(b, false) == {}
    ensures ValidSettings(SettingsOf(b))
  {
    var e := SettingsErrors(b, false);
    assert "theme" !in e && "accent_color" !in e && "profile_visibility" !in e;
    assert "default_date_range" !in e && "default_chart_type" !in e && "start_week_on" !in e;
    assert "time_format" !in e && "date_format" !in e && "measurement_system" !in e;
  }

  /** `UserSettingsUpdate(**body).model_dump(exclude_unset=True)`: every field optional, same bounds. */
  function ValidateSettingsUpdate(b: SettingsBody): (r: Checked<Row>)
    ensures r.Rejected? ==> r.fields != {}
  {
    var errors := SettingsErrors(b, true);
    if errors != {} then Rejected(errors) else Accepted(SettingsUpdateRow(b))
  }

  /** `model_dump(exclude_unset=True)` of a settings update: the keys that were sent, `null` as `VNull`. */
  function SettingsUpdateRow(b: SettingsBody): Row {
    Dump(SettingsFields(b))
  }

  /** The fields of a settings body, with their columns. */
  function SettingsFields(b: SettingsBody): seq<Field> {
    [Field("theme", Lift(b.theme, Str)),
     Field("accent_color", Lift(b.accentColor, Str)),
     Field("compact_mode", Lift(b.compactMode, Bool)),
     Field("email_notifications", Lift(b.emailNotifications, Bool)),
     Field("push_notifications", Lift(b.pushNotifications, Bool)),
     Field("weekly_summary_email", Lift(b.weeklySummaryEmail, Bool)),
     Field("reminder_time", Lift(b.reminderTime, Time)),
     Field("profile_visibility", Lift(b.profileVisibility, Str)),
     Field("show_streak_publicly", Lift(b.showStreakPublicly, Bool)),
     Field("allow_data_analytics", Lift(b.allowDataAnalytics, Bool)),
     Field("default_date_range", Lift(b.defaultDateRange, Int)),
     Field("default_chart_type", Lift(b.defaultChartType, Str)),
     Field("show_weekend_markers", Lift(b.showWeekendMarkers, Bool)),
     Field("start_week_on", Lift(b.startWeekOn, Str)),
     Field("time_format", Lift(b.timeFormat, Str)),
     Field("date_format", Lift(b.dateFormat, Str)),
     Field("measurement_system", Lift(b.measurementSystem, Str))]
  }

  const EmptySettings := SettingsBody(Unset, Unset, Unset, Unset, Unset, Unset, Unset, Unset, Unset,
                                      Unset, Unset, Unset, Unset, Unset, Unset, Unset, Unset)

  /** An empty settings body takes every default. */
  lemma SettingsDefaults()
    ensures ValidateSettings(EmptySettings) ==
            Accepted(Settings("system", "blue", false, true, true, true, "07:00:00", "private", false, true,
                              30, "line", true, "monday", "24h", "YYYY-MM-DD", "metric"))
    ensures ValidateSettingsUpdate(EmptySettings) == Accepted(map[])
  {
    DumpOnly(SettingsFields(EmptySettings), 17);
  }

  /** `default_date_range` must lie in [7, 365], in the settings and in a settings update. */
  lemma DateRangeBounds(days: int)
    ensures var r := ValidateSettings(EmptySettings.(defaultDateRange := Given(days)));
            (r.Accepted? <==> 7 <= days <= 365) && (r.Rejected? ==> r.fields == {"default_date_range"})
    ensures var r := ValidateSettingsUpdate(EmptySettings.(defaultDateRange := Given(days)));
            (r.Accepted? <==> 7 <= days <= 365) && (r.Rejected? ==> r.fields == {"default_date_range"})
  {
  }

  /** `theme` takes only its three literals. */
  lemma ThemeLiterals(theme: string)
    ensures ValidateSettings(EmptySettings.(theme := Given(theme))).Accepted? <==> theme in {"light", "dark", "system"}
  {
    assert SettingsErrors(EmptySettings.(theme := Given(theme)), false) == if IsTheme(theme) then {} else {"theme"};
  }

  /** `time_format` takes only `12h` and `24h`. */
  lemma TimeFormatLiterals(format: string)
    ensures ValidateSettings(EmptySettings.(timeFormat := Given(format))).Accepted? <==> format in {"12h", "24h"}
  {
    assert SettingsErrors(EmptySettings.(timeFormat := Given(format)), false) ==
           if IsTimeFormat(format) then {} else {"time_format"};
  }

  /** Every settings field may be sent as `null` to the update, not to the base model. */
  lemma SettingsUpdateAcceptsNull()
    ensures ValidateSettingsUpdate(EmptySettings.(theme := Null)) == Accepted(map["theme" := VNull])
    ensures ValidateSettings(EmptySettings.(theme := Null)) == Rejected({"theme"})
  {
    DumpOnly(SettingsFields(EmptySettings.(theme := Null)), 0);
  }

  // ------------------------------------------------------------------
  // User goals
  // ------------------------------------------------------------------

  datatype GoalBody = GoalBody(
    goalType: Sent<string>, targetValue: Sent<real>, targetUnit: Sent<string>, isActive: Sent<bool>,
    reminderEnabled: Sent<bool>)

  /** `UserGoalCreate`. */
  datatype GoalCreate = GoalCreate(
    goalType: string, targetValue: real, targetUnit: Option<string>, isActive: bool, reminderEnabled: bool)

  predicate ValidGoal(m: GoalCreate) {
    IsGoalType(m.goalType) && (m.targetUnit.Some? ==> Text20(m.targetUnit.value))
  }

  function ValidateGoal(b: GoalBody): (r: Checked<GoalCreate>)
    ensures r.Accepted? ==> (ValidGoal(r.value) && b.goalType == Given(r.value.goalType) &&
              b.targetValue == Given(r.value.targetValue) && r.value.targetUnit == OrNone(b.targetUnit) &&
              r.value.isActive == OrDefault(b.isActive, true) &&
              r.value.reminderEnabled == OrDefault(b.reminderEnabled, false))
    ensures r.Rejected? ==> r.fields != {}
  {
    var errors :=
      Required(b.goalType, IsGoalType, "goal_type") +
      Required(b.targetValue, AnyReal, "target_value") +
      Nullable(b.targetUnit, Text20, "target_unit") +
      Defaulted(b.isActive, AnyBool, "is_active") + Defaulted(b.reminderEnabled, AnyBool, "reminder_enabled");
    if errors != {} then Rejected(errors)
    else
      Accepted(GoalCreate(b.goalType.v, b.targetValue.v, OrNone(b.targetUnit), OrDefault(b.isActive, true),
                          OrDefault(b.reminderEnabled, false)))
  }

  /** `UserGoalUpdate(**body).model_dump(exclude_unset=True)`; `goal_type` is not one of its fields. */
  function ValidateGoalUpdate(b: GoalBody): (r: Checked<Row>)
    ensures r.Rejected? ==> r.fields != {}
  {
    var errors := Nullable(b.targetUnit, Text20, "target_unit");
    if errors != {} then Rejected(errors) else Accepted(GoalUpdateRow(b))
  }

  /** `model_dump(exclude_unset=True)` of a goal update: the keys that were sent, `null` as `VNull`. */
  function GoalUpdateRow(b: GoalBody): Row {
    Dump(GoalFields(b))
  }

  /** The fields of a goal body, with their columns. */
  function GoalFields(b: GoalBody): seq<Field> {
    [Field("target_value", Lift(b.targetValue, Real)),
     Field("target_unit", Lift(b.targetUnit, Str)),
     Field("is_active", Lift(b.isActive, Bool)),
     Field("reminder_enabled", Lift(b.reminderEnabled, Bool))]
  }

  /** A goal needs a known type and its target; it is active and without reminder unless told otherwise. */
  lemma GoalDefaults(goalType: string, target: real)
    ensures var r := ValidateGoal(GoalBody(Given(goalType), Given(target), Unset, Unset, Unset));
            (r.Accepted? <==> IsGoalType(goalType)) &&
            (r.Accepted? ==> r.value == GoalCreate(goalType, target, None, true, false)) &&
            (r.Rejected? ==> r.fields == {"goal_type"})
    ensures ValidateGoal(GoalBody(Given("sleep_duration"), Unset, Unset, Unset, Unset)) == Rejected({"target_value"})
  {
  }

  /** An update cannot change a goal's type: the key is dropped, and the update never fails for it. */
  lemma GoalUpdateIgnoresType(b: GoalBody, goalType: Sent<string>)
    ensures ValidateGoalUpdate(b.(goalType := goalType)) == ValidateGoalUpdate(b)
    ensures ValidateGoalUpdate(b).Accepted? ==> "goal_type" !in ValidateGoalUpdate(b).value
  {
  }

  /** The update's `is_active` key is the one the goal service reads. */
  lemma GoalUpdateActivates(b: GoalBody)
    requires b.isActive == Given(true) && ValidateGoalUpdate(b).Accepted?
    ensures var row := ValidateGoalUpdate(b).value;
            "is_active" in row && row["is_active"] == VBool(true) &&
            row.Keys <= {"target_value", "target_unit", "is_active", "reminder_enabled"}
  {
    var fs := GoalFields(b);
    assert DistinctNames(fs);
    DumpRecords(fs);
    assert Recorded(Dump(fs), fs[2]);
  }
}
