/**
 * The two daily records the application is built around, as the frontend
 * receives them (`MorningRoutine` and `ProductivityEntry` in the frontend types)
 * and as the backend stores them (the `morning_routines` and
 * `productivity_entries` tables). Dates are ISO `YYYY-MM-DD` strings, so
 * their string order is their calendar order.
 */
module Records {
  import opened Common

  datatype Routine = Routine(
    id: string,
    userId: string,
    date: string,
    wakeTime: string,
    sleepHours: real,
    exerciseMinutes: int,
    meditationMinutes: int,
    breakfastQuality: string,
    morningMood: int,
    screenTimeBeforeBed: int,
    caffeineIntake: int,
    waterIntakeMl: int)

  datatype Productivity = Productivity(
    id: string,
    userId: string,
    date: string,
    routineId: Option<string>,
    productivityScore: int,
    tasksCompleted: int,
    tasksPlanned: int,
    focusHours: real,
    distractionsCount: int,
    energyLevel: int,
    stressLevel: int,
    notes: Option<string>)

  /** A row of `user_goals` (`UserGoal` in the frontend types). */
  datatype Goal = Goal(
    id: string,
    userId: string,
    goalType: string,
    targetValue: real,
    targetUnit: Option<string>,
    isActive: bool,
    reminderEnabled: bool,
    createdAt: string,
    updatedAt: string)

  function RoutineDate(r: Routine): string { r.date }

  function ProductivityDate(p: Productivity): string { p.date }
}
