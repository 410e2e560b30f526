/**
 * The synthetic dataset generator (backend/scripts/download_dataset.py).
 *
 * Every random draw of a day is an input, collected in a `DayDraws` record:
 * a `random.random()` roll, a standard normal draw `z` (so that
 * `np.random.normal(mu, sigma)` is `mu + sigma * z`), an exponential or
 * uniform draw, or a pick for `random.randint` / `random.choice` (the pick
 * modulo the number of choices). Days are proleptic Gregorian ordinals, as
 * `date.toordinal()` numbers them; their ISO spelling is not modelled.
 * Floats are exact reals.
 */
module Dataset {
  import opened Common
  import Validation

  // ------------------------------------------------------------------
  // Python and numpy numerics on exact reals
  // ------------------------------------------------------------------

  /** `int(x)` on a float: truncation toward zero. */
  function Trunc(x: real): (n: int)
    ensures x >= 0.0 ==> n as real <= x < n as real + 1.0
    ensures x < 0.0 ==> n as real - 1.0 < x <= n as real
  {
    if x >= 0.0 then x.Floor else -((-x).Floor)
  }

  /** `np.clip(x, lo, hi)`. */
  function Clip(x: real, lo: real, hi: real): (r: real)
    requires lo <= hi
    ensures lo <= r <= hi
    ensures lo <= x <= hi ==> r == x
  {
    if x < lo then lo else if x > hi then hi else x
  }

  /** Truncating a value clipped to whole, non-negative bounds stays within them. */
  lemma TruncWithin(x: real, lo: int, hi: int)
    requires 0 <= lo <= hi && lo as real <= x <= hi as real
    ensures lo <= Trunc(x) <= hi
  {
  }

  /** `round(x)`: to the nearest integer, halves to the even one. */
  function RoundHalfEven(x: real): (n: int)
    ensures -0.5 <= n as real - x <= 0.5
    ensures (n as real - x == 0.5 || x - n as real == 0.5) ==> n % 2 == 0
  {
    var f := x.Floor;
    var frac := x - f as real;
    if frac < 0.5 then f else if frac > 0.5 then f + 1 else if f % 2 == 0 then f else f + 1
  }

  /** `round(x, 1)`. */
  function Round1(x: real): real {
    RoundHalfEven(x * 10.0) as real / 10.0
  }

  /** Rounding to one decimal moves a value by at most 0.05 and keeps it within bounds given in tenths. */
  lemma Round1Within(x: real, lo: int, hi: int)
    requires lo <= hi && lo as real / 10.0 <= x <= hi as real / 10.0
    ensures lo as real / 10.0 <= Round1(x) <= hi as real / 10.0
    ensures -0.05 <= Round1(x) - x <= 0.05
  {
    var n := RoundHalfEven(x * 10.0);
    assert lo as real <= x * 10.0 <= hi as real;
    assert lo <= n <= hi;
  }

  /** A Python `bool` used as a number. */
  function Flag(b: bool): real {
    if b then 1.0 else 0.0
  }

  function MinReal(a: real, b: real): real {
    if a <= b then a else b
  }

  function MinInt(a: int, b: int): int {
    if a <= b then a else b
  }

  function MaxInt(a: int, b: int): int {
    if a >= b then a else b
  }

  /** `date.weekday()` of a day ordinal: 0 is Monday (ordinal 1, 0001-01-01, was a Monday). */
  function Weekday(day: int): int {
    (day + 6) % 7
  }

  // ------------------------------------------------------------------
  // generate_wake_time
  // ------------------------------------------------------------------

  /** `int((1 - sleep_quality) * 90)`. */
  function WakeVariance(quality: real): int {
    Trunc((1.0 - quality) * 90.0)
  }

  /** `random.randint(-variance // 2, variance)`; `//` floors, as Dafny's `/` does for a positive divisor. */
  function WakeOffset(variance: int, pick: nat): (offset: int)
    requires variance >= 0
    ensures (-variance) / 2 <= offset <= variance
  {
    var lo := (-variance) / 2;
    lo + pick % (variance - lo + 1)
  }

  /** `max(5 * 60, min(9 * 60, 6 * 60 + 30 + offset))`. */
  function WakeMinutes(offset: int): (m: int)
    ensures 300 <= m <= 540
    ensures 300 <= 390 + offset <= 540 ==> m == 390 + offset
  {
    MaxInt(5 * 60, MinInt(9 * 60, 6 * 60 + 30 + offset))
  }

  /** `generate_wake_time`; `randint` needs `-variance // 2 <= variance`, that is a non-negative variance. */
  function GenerateWakeTime(quality: real, pick: nat): string
    requires WakeVariance(quality) >= 0
  {
    var m := WakeMinutes(WakeOffset(WakeVariance(quality), pick));
    Pad2(m / 60) + ":" + Pad2(m % 60)
  }

  lemma Pad2Length(n: nat)
    requires n < 100
    ensures |Pad2(n)| == 2
  {
    if n >= 10 {
      assert NatToString(n) == NatToString(n / 10) + [DigitChar(n % 10)];
    }
  }

  /** The wake time is `HH:MM` and reads back as the clamped minutes, between 05:00 and 09:00. */
  lemma WakeTimeFormat(quality: real, pick: nat)
    requires WakeVariance(quality) >= 0
    ensures var wt := GenerateWakeTime(quality, pick);
            var m := WakeMinutes(WakeOffset(WakeVariance(quality), pick));
            |wt| == 5 && wt[2] == ':' &&
            ParseInt(wt[..2]) == Some(m / 60) && ParseInt(wt[3..]) == Some(m % 60) &&
            5 <= m / 60 <= 9 && 0 <= m % 60 < 60 && 300 <= (m / 60) * 60 + m % 60 <= 540
  {
    var wt := GenerateWakeTime(quality, pick);
    var m := WakeMinutes(WakeOffset(WakeVariance(quality), pick));
    Pad2Length(m / 60);
    Pad2Length(m % 60);
    assert wt[..2] == Pad2(m / 60);
    assert wt[3..] == Pad2(m % 60);
    ParseIntPad2(m / 60);
    ParseIntPad2(m % 60);
  }

  /**
   * With the sleep quality in [-0.25, 1] the variance lies in [0, 112]; it
   * passes 90, the bound the code's comment gives, when the quality is negative.
   */
  lemma WakeVarianceRange(quality: real)
    requires -0.25 <= quality <= 1.0
    ensures 0 <= WakeVariance(quality) <= 112
    ensures WakeVariance(-0.25) == 112
  {
    TruncWithin((1.0 - quality) * 90.0, 0, 113);
    assert (1.0 - (-0.25)) * 90.0 == 112.5;
  }

  // ------------------------------------------------------------------
  // generate_breakfast_quality
  // ------------------------------------------------------------------

  /** `(mood / 10) * 0.6 + (min(exercise, 60) / 60) * 0.4 + uniform(-0.2, 0.2)`. */
  function BreakfastScore(mood: int, exercise: int, noise: real): real {
    (mood as real / 10.0) * 0.6 + (MinInt(exercise, 60) as real / 60.0) * 0.4 + noise
  }

  /** For a mood in 1..10, non-negative exercise and noise drawn from [-0.2, 0.2] the score lies in [-0.14, 1.2]. */
  lemma BreakfastScoreBounds(mood: int, exercise: int, noise: real)
    requires 1 <= mood <= 10 && exercise >= 0 && -0.2 <= noise <= 0.2
    ensures -0.14 <= BreakfastScore(mood, exercise, noise) <= 1.2
  {
  }

  function BreakfastQuality(score: real): (quality: string)
    ensures Validation.IsBreakfastQuality(quality)
  {
    if score > 0.75 then "excellent"
    else if score > 0.5 then "good"
    else if score > 0.25 then "fair"
    else "poor"
  }

  /** Each quality is given on exactly one band of scores. */
  lemma BreakfastBands(score: real)
    ensures BreakfastQuality(score) == "excellent" <==> score > 0.75
    ensures BreakfastQuality(score) == "good" <==> 0.5 < score <= 0.75
    ensures BreakfastQuality(score) == "fair" <==> 0.25 < score <= 0.5
    ensures BreakfastQuality(score) == "poor" <==> score <= 0.25
  {
  }

  /** `{"poor": 0, "fair": 1, "good": 2, "excellent": 3}[quality]`. */
  function BreakfastPoints(quality: string): (points: int)
    requires Validation.IsBreakfastQuality(quality)
    ensures 0 <= points <= 3
  {
    if quality == "poor" then 0 else if quality == "fair" then 1 else if quality == "good" then 2 else 3
  }

  /** The points grow with the quality bands. */
  lemma BreakfastPointsMonotone(a: real, b: real)
    requires a <= b
    ensures BreakfastPoints(BreakfastQuality(a)) <= BreakfastPoints(BreakfastQuality(b))
  {
  }

  // ------------------------------------------------------------------
  // generate_notes
  // ------------------------------------------------------------------

  const HighProductivityNotes: seq<string> := [
    "Very focused day, got a lot done!", "Great flow state today.", "Crushed it! Everything clicked.",
    "Productive morning set the tone for the day.", "Deep work session was very effective."]
  const LowProductivityNotes: seq<string> := [
    "Struggled to focus today.", "Too many interruptions.", "Felt scattered, hard to concentrate.",
    "Not my best day, will try again tomorrow.", "Brain fog most of the day."]
  const HighStressNotes: seq<string> := [
    "Deadline pressure building up.", "Lots of meetings, little focus time.", "Feeling overwhelmed with tasks.",
    "Need to better prioritize tomorrow.", "Stressful day, took a walk to decompress."]
  const CompletedAllNotes: seq<string> := [
    "Finished everything on my list!", "All tasks done, feeling accomplished.", "Clean sweep today!"]
  const NeutralNotes: seq<string> := [
    "Average day overall.", "Steady progress on projects.", "Nothing special to note.", "Regular workday.",
    "", "", ""]

  /** The branch of `generate_notes` that picks the pool. */
  datatype NotesBranch = AllDone | HighProductivity | HighStress | LowProductivity | Neutral

  /** The first branch whose condition holds. */
  function Branch(productivity: int, stress: int, completed: int, planned: int): NotesBranch {
    if productivity >= 8 && completed >= planned then AllDone
    else if productivity >= 7 then HighProductivity
    else if stress >= 7 then HighStress
    else if productivity <= 4 then LowProductivity
    else Neutral
  }

  /** The pool each branch chooses from. */
  function Pool(b: NotesBranch): seq<string> {
    match b
    case AllDone => CompletedAllNotes + HighProductivityNotes
    case HighProductivity => HighProductivityNotes + NeutralNotes
    case HighStress => HighStressNotes
    case LowProductivity => LowProductivityNotes
    case Neutral => NeutralNotes
  }

  /** The number of notes in each pool. */
  function PoolSize(b: NotesBranch): (n: nat)
    ensures n > 0
  {
    match b
    case AllDone => 8
    case HighProductivity => 12
    case HighStress => 5
    case LowProductivity => 5
    case Neutral => 7
  }

  lemma PoolSizeIsLength(b: NotesBranch)
    ensures PoolSize(b) == |Pool(b)|
  {
  }

  /** A note, recorded as the branch that chose it and its position in that branch's pool. */
  datatype Note = Note(branch: NotesBranch, index: nat)

  /** The `random.choice` of `generate_notes`, as a position in the chosen pool. */
  function ChooseNote(productivity: int, stress: int, completed: int, planned: int, pick: nat): (n: Note)
    ensures n.branch == Branch(productivity, stress, completed, planned) && n.index < PoolSize(n.branch)
  {
    var b := Branch(productivity, stress, completed, planned);
    var index := match b
      case AllDone => pick % 8
      case HighProductivity => pick % 12
      case HighStress => pick % 5
      case LowProductivity => pick % 5
      case Neutral => pick % 7;
    Note(b, index)
  }

  /** The text of a note. */
  function NoteText(n: Note): string
    requires n.index < PoolSize(n.branch)
  {
    PoolSizeIsLength(n.branch);
    Pool(n.branch)[n.index]
  }

  /** `generate_notes`: one of the notes of the chosen branch's pool. */
  function GenerateNotes(productivity: int, stress: int, completed: int, planned: int, pick: nat): (note: string)
    ensures note in Pool(Branch(productivity, stress, completed, planned))
  {
    NoteText(ChooseNote(productivity, stress, completed, planned, pick))
  }

  // Which pool a note comes from tells which branch chose it.

  lemma CompletedAllNote(productivity: int, stress: int, completed: int, planned: int, pick: nat)
    requires GenerateNotes(productivity, stress, completed, planned, pick) in CompletedAllNotes
    ensures productivity >= 8 && completed >= planned
  {
  }

  lemma HighStressNote(productivity: int, stress: int, completed: int, planned: int, pick: nat)
    requires GenerateNotes(productivity, stress, completed, planned, pick) in HighStressNotes
    ensures productivity < 7 && stress >= 7
  {
  }

  lemma LowProductivityNote(productivity: int, stress: int, completed: int, planned: int, pick: nat)
    requires GenerateNotes(productivity, stress, completed, planned, pick) in LowProductivityNotes
    ensures productivity <= 4 && stress < 7
  {
  }

  lemma HighProductivityNote(productivity: int, stress: int, completed: int, planned: int, pick: nat)
    requires GenerateNotes(productivity, stress, completed, planned, pick) in HighProductivityNotes
    ensures productivity >= 7
  {
  }

  /** An empty note comes only from the neutral pool, which two branches use. */
  lemma EmptyNote(productivity: int, stress: int, completed: int, planned: int, pick: nat)
    requires GenerateNotes(productivity, stress, completed, planned, pick) == ""
    ensures productivity == 7 || (productivity >= 8 && completed < planned) || (4 < productivity < 7 && stress < 7)
  {
  }

  // ------------------------------------------------------------------
  // One day of generate_dataset
  // ------------------------------------------------------------------

  /** The random draws of one day, in the order the loop body makes them. */
  datatype DayDraws = DayDraws(
    skipRoll: real, sleepNoise: real, screenDraw: real, wakePick: nat,
    exerciseRoll: real, exerciseNoise: real, meditationRoll: real, meditationNoise: real,
    moodNoise: real, breakfastNoise: real, caffeineNoise: real, waterNoise: real,
    energyNoise: real, stressNoise: real, plannedNoise: real, focusNoise: real,
    distractionNoise: real, productivityNoise: real, completedNoise: real, notesPick: nat)

  /** A day is logged unless its `random.random()` roll falls below 0.05. */
  predicate Kept(d: DayDraws) {
    !(d.skipRoll < 0.05)
  }

  /** One dict appended to `routines`, the date held as a day ordinal. */
  datatype RoutineRow = RoutineRow(
    day: int, wakeTime: string, sleepHours: real, exerciseMinutes: int, meditationMinutes: int,
    breakfastQuality: string, morningMood: int, screenTimeBeforeBed: int, caffeineIntake: int,
    waterIntakeMl: int)

  /** One dict appended to `productivity`. */
  datatype ProductivityRow = ProductivityRow(
    day: int, productivityScore: int, tasksCompleted: int, tasksPlanned: int, focusHours: real,
    distractionsCount: int, energyLevel: int, stressLevel: int, notes: Note)

  /** `min(1.0, (sleep_duration - 5) / 4) * (1 - screen_time / 300)`. */
  function SleepQuality(sleep: real, screen: int): real {
    MinReal(1.0, (sleep - 5.0) / 4.0) * (1.0 - screen as real / 300.0)
  }

  /** With sleep in [4, 10] and screen time in [0, 180] the quality lies in [-0.25, 1]. */
  lemma SleepQualityBounds(sleep: real, screen: int)
    requires 4.0 <= sleep <= 10.0 && 0 <= screen <= 180
    ensures -0.25 <= SleepQuality(sleep, screen) <= 1.0
  {
    var a := MinReal(1.0, (sleep - 5.0) / 4.0);
    var b := 1.0 - screen as real / 300.0;
    assert -0.25 <= a <= 1.0 && 0.4 <= b <= 1.0;
    var q := a * b;
    assert SleepQuality(sleep, screen) == q;
    var na, c := -a, 1.0 - b;
    if a >= 0.0 {
      ProductNonNegative(a, c);
      assert a * c == a - q;
      ProductNonNegative(a, b);
    } else {
      ProductNonNegative(na, c);
      assert na * c == q - a;
      ProductNonNegative(na, b);
      assert na * b == -q;
    }
  }

  lemma ProductNonNegative(x: real, y: real)
    requires x >= 0.0 && y >= 0.0
    ensures x * y >= 0.0
  {
  }

  /** `round(np.clip(np.random.normal(base_sleep, 1.0) + (prev_sleep - 7) * 0.2, 4.0, 10.0), 1)`. */
  function SleepFor(weekend: bool, prevSleep: real, noise: real): (sleep: real)
    ensures 4.0 <= sleep <= 10.0
  {
    var x := Clip((if weekend then 7.5 else 7.0) + noise + (prevSleep - 7.0) * 0.2, 4.0, 10.0);
    Round1Within(x, 40, 100);
    Round1(x)
  }

  /** `int(np.clip(np.random.exponential(30), 0, 180))`. */
  function ScreenFor(draw: real): (screen: int)
    ensures 0 <= screen <= 180
  {
    var x := Clip(draw, 0.0, 180.0);
    TruncWithin(x, 0, 180);
    Trunc(x)
  }

  /** `int(np.clip(mean + sd * z, lo, hi))` for whole, non-negative bounds. */
  function ClippedInt(x: real, lo: int, hi: int): (n: int)
    requires 0 <= lo <= hi
    ensures lo <= n <= hi
  {
    var c := Clip(x, lo as real, hi as real);
    TruncWithin(c, lo, hi);
    Trunc(c)
  }

  /** The ranges the generator keeps a routine row in. */
  predicate RoutineInRange(r: RoutineRow) {
    4.0 <= r.sleepHours <= 10.0 && 0 <= r.screenTimeBeforeBed <= 180 &&
    (r.exerciseMinutes == 0 || 10 <= r.exerciseMinutes <= 90) &&
    (r.meditationMinutes == 0 || 5 <= r.meditationMinutes <= 30) &&
    1 <= r.morningMood <= 10 && Validation.IsBreakfastQuality(r.breakfastQuality) &&
    r.caffeineIntake >= 0 && 0 <= r.waterIntakeMl <= 2000
  }

  /**
   * The routine half of one kept day of the loop, from the previous day's
   * sleep and the exercise streak; also gives the new streak.
   */
  function RoutineFor(day: int, prevSleep: real, streak: nat, d: DayDraws): (out: (RoutineRow, nat))
    ensures out.0.day == day && RoutineInRange(out.0)
    ensures out.1 == if out.0.exerciseMinutes > 0 then streak + 1 else 0
  {
    var weekend := Weekday(day) >= 5;
    var sleep := SleepFor(weekend, prevSleep, d.sleepNoise);
    var screen := ScreenFor(d.screenDraw);
    var quality := SleepQuality(sleep, screen);
    SleepQualityBounds(sleep, screen);
    WakeVarianceRange(quality);
    var wake := GenerateWakeTime(quality, d.wakePick);
    var exercised := d.exerciseRoll < 0.4 + quality * 0.3 + (if weekend then 0.2 else 0.0);
    var exercise := if exercised then ClippedInt(35.0 + 15.0 * d.exerciseNoise, 10, 90) else 0;
    var streak' := if exercised then streak + 1 else 0;
    var meditation :=
      if d.meditationRoll < 0.3 + MinReal(streak' as real * 0.05, 0.3)
      then ClippedInt(12.0 + 5.0 * d.meditationNoise, 5, 30) else 0;
    var moodBase := 5.0 + quality * 3.0 + Flag(exercise > 0) * 1.5 + Flag(meditation > 0) * 0.5;
    var mood := ClippedInt(moodBase + d.moodNoise, 1, 10);
    var breakfast := BreakfastQuality(BreakfastScore(mood, exercise, d.breakfastNoise));
    var caffeine :=
      MaxInt(0, Trunc(if sleep < 6.5 then 250.0 + 50.0 * d.caffeineNoise
                      else if sleep < 7.5 then 150.0 + 40.0 * d.caffeineNoise
                      else 80.0 + 30.0 * d.caffeineNoise));
    var waterBase := 400.0 + exercise as real * 8.0 + Flag(meditation > 0) * 200.0;
    var water := ClippedInt(waterBase + 150.0 * d.waterNoise, 0, 2000);
    (RoutineRow(day, wake, sleep, exercise, meditation, breakfast, mood, screen, caffeine, water), streak')
  }

  /** The ranges the generator keeps a productivity row in. */
  predicate ProductivityInRange(p: ProductivityRow) {
    1 <= p.productivityScore <= 10 && 1 <= p.tasksPlanned <= 12 &&
    0 <= p.tasksCompleted <= p.tasksPlanned + 1 &&
    0.0 <= p.focusHours <= 8.0 && 0 <= p.distractionsCount <= 20 &&
    1 <= p.energyLevel <= 10 && 1 <= p.stressLevel <= 10 && p.notes.index < PoolSize(p.notes.branch)
  }

  /** The productivity half of a kept day, from that day's routine row. */
  function ProductivityFor(r: RoutineRow, d: DayDraws): (p: ProductivityRow)
    requires Validation.IsBreakfastQuality(r.breakfastQuality)
    ensures p.day == r.day && ProductivityInRange(p)
    ensures p.notes == ChooseNote(p.productivityScore, p.stressLevel, p.tasksCompleted, p.tasksPlanned, d.notesPick)
  {
    var weekend := Weekday(r.day) >= 5;
    var quality := SleepQuality(r.sleepHours, r.screenTimeBeforeBed);
    var energyBase := 4.0 + quality * 3.0 + Flag(r.exerciseMinutes > 20) * 1.5 +
                      BreakfastPoints(r.breakfastQuality) as real * 0.5;
    var energy := ClippedInt(energyBase + d.energyNoise, 1, 10);
    var stressBase := 6.0 - r.meditationMinutes as real * 0.1 - Flag(r.exerciseMinutes > 0) * 1.5 +
                      (1.0 - quality) * 2.0;
    var stress := ClippedInt(stressBase + 1.5 * d.stressNoise, 1, 10);
    var planned := ClippedInt((if weekend then 3.0 else 6.0) + 2.0 * d.plannedNoise, 1, 12);
    var caffeineOptimal := 100 <= r.caffeineIntake <= 200;
    var focusBase := 3.0 + energy as real * 0.3 + Flag(r.meditationMinutes > 0) * 0.5 + Flag(caffeineOptimal) * 0.5;
    var focusClipped := Clip(focusBase + d.focusNoise, 0.0, 8.0);
    Round1Within(focusClipped, 0, 80);
    var focus := Round1(focusClipped);
    var distractionBase := 3.0 + Flag(r.caffeineIntake > 200) * 2.0 + stress as real * 0.3 -
                           r.meditationMinutes as real * 0.1;
    var distractions := ClippedInt(distractionBase + 2.0 * d.distractionNoise, 0, 20);
    var productivityBase := 5.0 + quality * 2.0 + energy as real * 0.2 + focus * 0.3 - stress as real * 0.15 -
                            distractions as real * 0.1 + Flag(r.exerciseMinutes > 0) * 0.5;
    var score := ClippedInt(productivityBase + 0.8 * d.productivityNoise, 1, 10);
    var completionRate := 0.3 + score as real * 0.07;
    var completed := ClippedInt(RoundHalfEven(planned as real * completionRate + d.completedNoise) as real,
                                0, planned + 1);
    var notes := ChooseNote(score, stress, completed, planned, d.notesPick);
    ProductivityRow(r.day, score, completed, planned, focus, distractions, energy, stress, notes)
  }

  // ------------------------------------------------------------------
  // generate_dataset
  // ------------------------------------------------------------------

  /** `prev_sleep` after the rows so far: the last sleep, or 7.0 before the first. */
  function PrevSleep(rs: seq<RoutineRow>): real {
    if rs == [] then 7.0 else rs[|rs| - 1].sleepHours
  }

  /** `prev_exercise_streak` after the rows so far: the number of trailing days with exercise. */
  function ExerciseStreak(rs: seq<RoutineRow>): (n: nat)
    ensures n <= |rs|
    ensures forall k :: |rs| - n <= k < |rs| ==> rs[k].exerciseMinutes > 0
    ensures n < |rs| ==> rs[|rs| - 1 - n].exerciseMinutes <= 0
  {
    if rs == [] then 0
    else if rs[|rs| - 1].exerciseMinutes > 0 then ExerciseStreak(rs[..|rs| - 1]) + 1
    else 0
  }

  /** One kept day: its routine row from the rows so far, and its productivity row. */
  function Day(day: int, rs: seq<RoutineRow>, d: DayDraws): (rows: (RoutineRow, ProductivityRow))
    ensures rows.0.day == day && rows.1.day == day && RoutineInRange(rows.0) && ProductivityInRange(rows.1)
  {
    var r := RoutineFor(day, PrevSleep(rs), ExerciseStreak(rs), d).0;
    (r, ProductivityFor(r, d))
  }

  /** The type of `Day`, so that facts about the loop can be proved for any day function. */
  type DayFunction = (int, seq<RoutineRow>, DayDraws) -> (RoutineRow, ProductivityRow)

  /**
   * The rows the loop has built after the first `k` days from `start`, with
   * `day` computing a kept day's rows: a skipped day adds nothing, a kept day
   * adds its routine row and its productivity row, computed from the rows
   * the earlier kept days left. The loop of `generate_dataset` is `Build`
   * with `Day`.
   */
  function Build(start: int, draws: seq<DayDraws>, k: nat, day: DayFunction): (out: (seq<RoutineRow>, seq<ProductivityRow>))
    requires k <= |draws|
    ensures |out.0| == |out.1| <= k
    decreases k
  {
    if k == 0 then ([], [])
    else
      var prev := Build(start, draws, k - 1, day);
      var d := draws[k - 1];
      if !Kept(d) then prev
      else
        var rows := day(start + k - 1, prev.0, d);
        (prev.0 + [rows.0], prev.1 + [rows.1])
  }

  /** A skipped day adds no rows. */
  lemma BuildSkip(start: int, draws: seq<DayDraws>, k: nat)
    requires k < |draws| && !Kept(draws[k])
    ensures Build(start, draws, k + 1, Day) == Build(start, draws, k, Day)
  {
  }

  /** A kept day adds the rows the day functions give from the state so far. */
  lemma BuildKeep(start: int, draws: seq<DayDraws>, k: nat, rs: seq<RoutineRow>, ps: seq<ProductivityRow>,
                  r: RoutineRow, p: ProductivityRow)
    requires k < |draws| && Kept(draws[k]) && Build(start, draws, k, Day) == (rs, ps)
    requires r == RoutineFor(start + k, PrevSleep(rs), ExerciseStreak(rs), draws[k]).0
    requires p == ProductivityFor(r, draws[k])
    ensures Build(start, draws, k + 1, Day) == (rs + [r], ps + [p])
  {
    assert Day(start + k, rs, draws[k]) == (r, p);
  }

  /** `day` gives rows for the day it is asked for, in the generator's ranges. */
  ghost predicate DayFits(day: DayFunction) {
    forall n, rs, d :: day(n, rs, d).0.day == n && day(n, rs, d).1.day == n &&
                       RoutineInRange(day(n, rs, d).0) && ProductivityInRange(day(n, rs, d).1)
  }

  lemma DayFitsDay()
    ensures DayFits(Day)
  {
    forall n, rs, d ensures Day(n, rs, d).0.day == n && Day(n, rs, d).1.day == n &&
                            RoutineInRange(Day(n, rs, d).0) && ProductivityInRange(Day(n, rs, d).1) {
    }
  }

  /** The two lists have a row for the same day at every position. */
  predicate DaysMatch(rs: seq<RoutineRow>, ps: seq<ProductivityRow>) {
    |rs| == |ps| && forall i :: 0 <= i < |rs| ==> ps[i].day == rs[i].day
  }

  /** The routine rows are in strictly increasing day order. */
  predicate DaysIncrease(rs: seq<RoutineRow>) {
    forall i, j :: 0 <= i < j < |rs| ==> rs[i].day < rs[j].day
  }

  /** Every row is for a kept day among the first `k` days from `start`. */
  predicate DaysKept(start: int, draws: seq<DayDraws>, k: nat, rs: seq<RoutineRow>)
    requires k <= |draws|
  {
    forall i :: 0 <= i < |rs| ==> start <= rs[i].day < start + k && Kept(draws[rs[i].day - start])
  }

  /** Day `j` of the draws is kept. */
  predicate KeptAt(draws: seq<DayDraws>, j: int)
    requires 0 <= j < |draws|
  {
    Kept(draws[j])
  }

  /** Every kept day among the first `k` days from `start` has a row. */
  predicate KeptDaysPresent(start: int, draws: seq<DayDraws>, k: nat, rs: seq<RoutineRow>)
    requires k <= |draws|
  {
    forall j :: 0 <= j < k && KeptAt(draws, j) ==> exists i :: 0 <= i < |rs| && rs[i].day == start + j
  }

  /** Every row lies in the generator's ranges. */
  predicate RowsInRange(rs: seq<RoutineRow>, ps: seq<ProductivityRow>)
    requires |rs| == |ps|
  {
    forall i :: 0 <= i < |rs| ==> RoutineInRange(rs[i]) && ProductivityInRange(ps[i])
  }

  /**
   * The rows built after `k` days: matching days in the two lists, strictly
   * increasing, each a kept day among the first `k`, every kept day present,
   * and every row in the generator's ranges.
   */
  lemma {:induction false} BuildRows(start: int, draws: seq<DayDraws>, k: nat, day: DayFunction)
    requires k <= |draws| && DayFits(day)
    ensures DaysMatch(Build(start, draws, k, day).0, Build(start, draws, k, day).1)
    ensures DaysIncrease(Build(start, draws, k, day).0)
    ensures DaysKept(start, draws, k, Build(start, draws, k, day).0)
    ensures KeptDaysPresent(start, draws, k, Build(start, draws, k, day).0)
    ensures RowsInRange(Build(start, draws, k, day).0, Build(start, draws, k, day).1)
  {
    if k > 0 {
      BuildRows(start, draws, k - 1, day);
      var rs, ps := Build(start, draws, k - 1, day).0, Build(start, draws, k - 1, day).1;
      var d := draws[k - 1];
      if Kept(d) {
        var rows := day(start + k - 1, rs, d);
        KeptDayRows(start, draws, k - 1, rs, ps, rows.0, rows.1);
      } else {
        DaysKeptSkip(start, draws, k - 1, rs);
        KeptDaysPresentSkip(start, draws, k - 1, rs);
      }
    }
  }

  /** A kept day's rows, appended, keep the facts of `BuildRows`. */
  lemma KeptDayRows(start: int, draws: seq<DayDraws>, k: nat, rs: seq<RoutineRow>, ps: seq<ProductivityRow>,
                    r: RoutineRow, p: ProductivityRow)
    requires k < |draws| && Kept(draws[k]) && |rs| == |ps|
    requires DaysMatch(rs, ps) && DaysIncrease(rs) && DaysKept(start, draws, k, rs) &&
             KeptDaysPresent(start, draws, k, rs) && RowsInRange(rs, ps)
    requires r.day == start + k && p.day == r.day && RoutineInRange(r) && ProductivityInRange(p)
    ensures DaysMatch(rs + [r], ps + [p]) && DaysIncrease(rs + [r]) && DaysKept(start, draws, k + 1, rs + [r]) &&
            KeptDaysPresent(start, draws, k + 1, rs + [r]) && RowsInRange(rs + [r], ps + [p])
  {
    DaysMatchSnoc(rs, ps, r, p);
    DaysIncreaseSnoc(start, draws, k, rs, r);
    DaysKeptSnoc(start, draws, k, rs, r);
    KeptDaysPresentSnoc(start, draws, k, rs, r);
    RowsInRangeSnoc(rs, ps, r, p);
  }

  lemma DaysMatchSnoc(rs: seq<RoutineRow>, ps: seq<ProductivityRow>, r: RoutineRow, p: ProductivityRow)
    requires DaysMatch(rs, ps) && p.day == r.day
    ensures DaysMatch(rs + [r], ps + [p])
  {
    forall i | 0 <= i < |rs| + 1 ensures (ps + [p])[i].day == (rs + [r])[i].day {
      if i < |rs| {
        assert (rs + [r])[i] == rs[i] && (ps + [p])[i] == ps[i];
      }
    }
  }

  lemma DaysIncreaseSnoc(start: int, draws: seq<DayDraws>, k: nat, rs: seq<RoutineRow>, r: RoutineRow)
    requires k <= |draws| && DaysIncrease(rs) && DaysKept(start, draws, k, rs) && r.day == start + k
    ensures DaysIncrease(rs + [r])
  {
    forall i, j | 0 <= i < j < |rs| + 1 ensures (rs + [r])[i].day < (rs + [r])[j].day {
      assert (rs + [r])[i] == rs[i];
      if j < |rs| {
        assert (rs + [r])[j] == rs[j];
      }
    }
  }

  lemma DaysKeptSnoc(start: int, draws: seq<DayDraws>, k: nat, rs: seq<RoutineRow>, r: RoutineRow)
    requires k < |draws| && DaysKept(start, draws, k, rs) && r.day == start + k && Kept(draws[k])
    ensures DaysKept(start, draws, k + 1, rs + [r])
  {
    forall i | 0 <= i < |rs| + 1
      ensures start <= (rs + [r])[i].day < start + k + 1 && Kept(draws[(rs + [r])[i].day - start])
    {
      if i < |rs| {
        assert (rs + [r])[i] == rs[i];
      }
    }
  }

  lemma DaysKeptSkip(start: int, draws: seq<DayDraws>, k: nat, rs: seq<RoutineRow>)
    requires k < |draws| && DaysKept(start, draws, k, rs)
    ensures DaysKept(start, draws, k + 1, rs)
  {
  }

  lemma KeptDaysPresentSnoc(start: int, draws: seq<DayDraws>, k: nat, rs: seq<RoutineRow>, r: RoutineRow)
    requires k < |draws| && KeptDaysPresent(start, draws, k, rs) && r.day == start + k
    ensures KeptDaysPresent(start, draws, k + 1, rs + [r])
  {
    var rs' := rs + [r];
    forall j | 0 <= j < k + 1 && KeptAt(draws, j) ensures exists i :: 0 <= i < |rs'| && rs'[i].day == start + j {
      if j == k {
        assert rs'[|rs|].day == start + j;
      } else {
        var i :| 0 <= i < |rs| && rs[i].day == start + j;
        assert rs'[i].day == start + j;
      }
    }
  }

  lemma KeptDaysPresentSkip(start: int, draws: seq<DayDraws>, k: nat, rs: seq<RoutineRow>)
    requires k < |draws| && KeptDaysPresent(start, draws, k, rs) && !Kept(draws[k])
    ensures KeptDaysPresent(start, draws, k + 1, rs)
  {
  }

  lemma RowsInRangeSnoc(rs: seq<RoutineRow>, ps: seq<ProductivityRow>, r: RoutineRow, p: ProductivityRow)
    requires |rs| == |ps| && RowsInRange(rs, ps) && RoutineInRange(r) && ProductivityInRange(p)
    ensures RowsInRange(rs + [r], ps + [p])
  {
    forall i | 0 <= i < |rs| + 1 ensures RoutineInRange((rs + [r])[i]) && ProductivityInRange((ps + [p])[i]) {
      if i < |rs| {
        assert (rs + [r])[i] == rs[i] && (ps + [p])[i] == ps[i];
      }
    }
  }

  /**
   * `generate_dataset` for `num_days` days from day ordinal `start`: one
   * routine and one productivity row per kept day, in day order, each the
   * day function applied to the state the previous kept days left.
   */
  method GenerateDataset(numDays: nat, start: int, draws: seq<DayDraws>)
    returns (routines: seq<RoutineRow>, productivity: seq<ProductivityRow>)
    requires |draws| == numDays
    ensures (routines, productivity) == Build(start, draws, numDays, Day)
    ensures DaysMatch(routines, productivity) && DaysIncrease(routines) &&
            DaysKept(start, draws, numDays, routines) && KeptDaysPresent(start, draws, numDays, routines) &&
            RowsInRange(routines, productivity)
  {
    routines, productivity := [], [];
    var prevSleep := 7.0;
    var prevExerciseStreak: nat := 0;
    var dayOffset := 0;
    while dayOffset < numDays
      invariant dayOffset <= numDays
      invariant (routines, productivity) == Build(start, draws, dayOffset, Day)
      invariant prevSleep == PrevSleep(routines) && prevExerciseStreak == ExerciseStreak(routines)
    {
      var currentDate := start + dayOffset;
      var d := draws[dayOffset];
      if d.skipRoll < 0.05 {
        BuildSkip(start, draws, dayOffset);
        dayOffset := dayOffset + 1;
        continue;
      }
      var row, entry, streak := KeptDay(start, draws, dayOffset, routines, productivity, prevSleep, prevExerciseStreak);
      prevSleep := row.sleepHours;
      prevExerciseStreak := streak;
      StateAppended(routines, row);
      routines := routines + [row];
      productivity := productivity + [entry];
      dayOffset := dayOffset + 1;
    }
    DayFitsDay();
    BuildRows(start, draws, numDays, Day);
  }

  /** One kept day of the loop: its two rows and the new exercise streak. */
  method KeptDay(start: int, draws: seq<DayDraws>, dayOffset: nat, routines: seq<RoutineRow>,
                 productivity: seq<ProductivityRow>, prevSleep: real, prevExerciseStreak: nat)
    returns (row: RoutineRow, entry: ProductivityRow, streak: nat)
    requires dayOffset < |draws| && Kept(draws[dayOffset])
    requires Build(start, draws, dayOffset, Day) == (routines, productivity)
    requires prevSleep == PrevSleep(routines) && prevExerciseStreak == ExerciseStreak(routines)
    ensures Build(start, draws, dayOffset + 1, Day) == (routines + [row], productivity + [entry])
    ensures streak == if row.exerciseMinutes > 0 then prevExerciseStreak + 1 else 0
  {
    var d := draws[dayOffset];
    var out := RoutineFor(start + dayOffset, prevSleep, prevExerciseStreak, d);
    row, streak := out.0, out.1;
    entry := ProductivityFor(row, d);
    BuildKeep(start, draws, dayOffset, routines, productivity, row, entry);
  }

  /** `prev_sleep` and `prev_exercise_streak` follow the rows appended. */
  lemma StateAppended(rs: seq<RoutineRow>, r: RoutineRow)
    ensures PrevSleep(rs + [r]) == r.sleepHours
    ensures ExerciseStreak(rs + [r]) == if r.exerciseMinutes > 0 then ExerciseStreak(rs) + 1 else 0
  {
    assert (rs + [r])[..|rs|] == rs;
  }

  /** Every generated routine passes the routine model's bounds, whatever ISO date it carries. */
  lemma GeneratedRoutineValid(r: RoutineRow, isoDate: string)
    requires RoutineInRange(r)
    ensures Validation.ValidRoutine(Validation.RoutineCreate(
              isoDate, r.wakeTime, r.sleepHours, r.exerciseMinutes, r.meditationMinutes, r.breakfastQuality,
              r.morningMood, r.screenTimeBeforeBed, r.caffeineIntake, r.waterIntakeMl))
  {
  }

  /** Every generated productivity entry passes the productivity model's bounds. */
  lemma GeneratedProductivityValid(p: ProductivityRow, isoDate: string)
    requires ProductivityInRange(p)
    ensures Validation.ValidProductivity(Validation.ProductivityCreate(
              isoDate, None, p.productivityScore, p.tasksCompleted, p.tasksPlanned, p.focusHours,
              p.distractionsCount, p.energyLevel, p.stressLevel, Some(NoteText(p.notes))))
  {
  }
}
