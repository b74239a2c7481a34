/** The fitness tracker of src/tasks/41302/1ideal.jsx: the workout and goal forms, the
  * streak loop, this month's summary, the personal bests and the list handlers of
  * `App`. Dates are day numbers; "today" is a parameter. Durations and intensities are
  * the integers `parseInt` reads from the number inputs. */
module WorkoutIdeal {
  import opened Wrappers
  import opened Seqs
  import opened Calendar

  const WorkoutTypes: seq<string> := ["Cardio", "Strength", "Flexibility"]

  /** A logged workout. */
  datatype Workout = Workout(kind: string, duration: int, intensity: int, date: int)

  /** The workout form; an empty number input is `None`. */
  datatype WorkoutDraft = WorkoutDraft(kind: string, duration: Option<int>, intensity: Option<int>)

  const BlankWorkoutDraft := WorkoutDraft("", None, None)

  /** `WorkoutForm.handleSubmit`: a workout dated today, only when all three fields are
    * filled in. */
  function SubmitWorkout(d: WorkoutDraft, today: int): (r: Option<Workout>)
    ensures r.Some? <==> d.kind != "" && d.duration.Some? && d.intensity.Some?
    ensures r.Some? ==> r.value.kind == d.kind && r.value.duration == d.duration.value
                        && r.value.intensity == d.intensity.value && r.value.date == today
  {
    if d.kind != "" && d.duration.Some? && d.intensity.Some?
    then Some(Workout(d.kind, d.duration.value, d.intensity.value, today))
    else None
  }

  // ---------------------------------------------------------------- goals

  datatype Goal = Goal(id: int, name: string, target: real, unit: string, progress: real)

  const InitialGoals: seq<Goal> := [Goal(1, "Run 5K", 5.0, "km", 0.0), Goal(2, "Bench Press", 100.0, "kg", 0.0)]

  /** The goal form; an empty target is `None`. */
  datatype GoalDraft = GoalDraft(name: string, target: Option<real>, unit: string)

  const BlankGoalDraft := GoalDraft("", None, "")

  /** `GoalTracker.handleAddGoal`: a goal with the clock as its id and no progress, only
    * when name, target and unit are all filled in. */
  function SubmitGoal(d: GoalDraft, now: int): (r: Option<Goal>)
    ensures r.Some? <==> d.name != "" && d.target.Some? && d.unit != ""
    ensures r.Some? ==> r.value.progress == 0.0 && r.value.id == now
    ensures r.Some? ==> r.value.name == d.name && r.value.target == d.target.value && r.value.unit == d.unit
  {
    if d.name != "" && d.target.Some? && d.unit != "" then Some(Goal(now, d.name, d.target.value, d.unit, 0.0))
    else None
  }

  /** `handleUpdateGoal`: the goals with that id get the new progress, nothing else changes. */
  function WithProgress(goals: seq<Goal>, id: int, progress: real): (r: seq<Goal>)
    ensures |r| == |goals|
    ensures forall k :: 0 <= k < |r| ==> r[k] == if goals[k].id == id then goals[k].(progress := progress) else goals[k]
  {
    if goals == [] then []
    else [if goals[0].id == id then goals[0].(progress := progress) else goals[0]]
         + WithProgress(goals[1..], id, progress)
  }

  /** Updating the same goal twice keeps only the second value, and updates of two
    * different goals do not interfere. */
  lemma WithProgressLaws(goals: seq<Goal>, a: int, b: int, p: real, q: real)
    ensures WithProgress(WithProgress(goals, a, p), a, q) == WithProgress(goals, a, q)
    ensures a != b ==> WithProgress(WithProgress(goals, a, p), b, q) == WithProgress(WithProgress(goals, b, q), a, p)
  {
  }

  // ---------------------------------------------------------------- streak

  /** The streak as the loop of `calculateStreak` counts it from the running date `cur`:
    * a workout more than a day older than `cur` stops the count, one on `cur` adds 1
    * and moves `cur` a day back, any other is skipped. */
  function StreakFrom(ws: seq<Workout>, cur: int): (n: nat)
    ensures n <= |ws|
  {
    if ws == [] || cur - ws[0].date > 1 then 0
    else if cur == ws[0].date then 1 + StreakFrom(ws[1..], cur - 1)
    else StreakFrom(ws[1..], cur)
  }

  /** `calculateStreak`, counted from today. */
  method CalculateStreak(ws: seq<Workout>, today: int) returns (streak: nat)
    ensures streak == StreakFrom(ws, today)
  {
    if |ws| == 0 {
      return 0;
    }
    streak := 0;
    var current := today;
    var i := 0;
    while i < |ws|
      invariant 0 <= i <= |ws|
      invariant streak + StreakFrom(ws[i..], current) == StreakFrom(ws, today)
    {
      assert ws[i..][1..] == ws[i + 1..];
      if current - ws[i].date > 1 {
        break;
      }
      if current == ws[i].date {
        streak := streak + 1;
        current := current - 1;
      }
      i := i + 1;
    }
  }

  /** A streak of `n` means a workout was logged on each of the `n` days counted back
    * from the start. */
  lemma {:induction false} StreakDaysLogged(ws: seq<Workout>, cur: int, j: int)
    requires 0 <= j < StreakFrom(ws, cur)
    ensures exists k :: 0 <= k < |ws| && ws[k].date == cur - j
  {
    if cur == ws[0].date {
      if j > 0 {
        StreakDaysLogged(ws[1..], cur - 1, j - 1);
        var k :| 0 <= k < |ws| - 1 && ws[1..][k].date == cur - 1 - (j - 1);
        assert ws[k + 1].date == cur - j;
      }
    } else {
      StreakDaysLogged(ws[1..], cur, j);
      var k :| 0 <= k < |ws| - 1 && ws[1..][k].date == cur - j;
      assert ws[k + 1].date == cur - j;
    }
  }

  /** Newest first, one workout per day back from `cur`: every workout counts. */
  lemma {:induction false} ConsecutiveDaysCount(ws: seq<Workout>, cur: int)
    requires forall k :: 0 <= k < |ws| ==> ws[k].date == cur - k
    ensures StreakFrom(ws, cur) == |ws|
  {
    if ws != [] {
      ConsecutiveDaysCount(ws[1..], cur - 1);
    }
  }

  /** A gap of more than a day at the head of the list: the streak is 0, however many
    * workouts follow. */
  lemma NoRecentWorkout(ws: seq<Workout>, today: int)
    requires ws != [] && ws[0].date < today - 1
    ensures StreakFrom(ws, today) == 0
  {
  }

  /** The widget's seven dots: the first `streak` of them filled. */
  function StreakDots(streak: int): (r: seq<bool>)
    ensures |r| == 7
  {
    seq(7, i => i < streak)
  }

  /** The number of filled dots. */
  function Filled(r: seq<bool>): nat {
    if r == [] then 0 else Filled(r[..|r| - 1]) + (if r[|r| - 1] then 1 else 0)
  }

  /** Exactly `min(streak, 7)` dots are filled (none for a streak of 0). */
  lemma FilledDots(streak: nat)
    ensures Filled(StreakDots(streak)) == if streak < 7 then streak else 7
  {
    var r := StreakDots(streak);
    FilledPrefix(streak, 7);
    assert r[..7] == r;
  }

  lemma {:induction false} FilledPrefix(streak: nat, n: nat)
    requires n <= 7
    ensures Filled(StreakDots(streak)[..n]) == if streak < n then streak else n
  {
    if n > 0 {
      FilledPrefix(streak, n - 1);
      assert StreakDots(streak)[..n][..n - 1] == StreakDots(streak)[..n - 1];
    }
  }

  // ---------------------------------------------------------------- summary

  /** Logged in the same month of the same year as today. */
  predicate ThisMonth(w: Workout, today: int) {
    MonthOf(w.date) == MonthOf(today)
  }

  function MonthWorkouts(ws: seq<Workout>, today: int): seq<Workout> {
    Filter(ws, w => ThisMonth(w, today))
  }

  /** `WorkoutSummary`'s three figures. */
  datatype Summary = Summary(total: nat, totalDuration: int, averageIntensity: real)

  function Duration(w: Workout): int { w.duration }

  function Intensity(w: Workout): int { w.intensity }

  /** The figures over a list of workouts: the count, the total duration, and the mean
    * intensity (0 when the list is empty). */
  function Summarize(m: seq<Workout>): (r: Summary)
    ensures r.total == |m| && r.totalDuration == SumOf(m, Duration)
    ensures r.total == 0 ==> r.averageIntensity == 0.0
    ensures r.total > 0 ==> r.averageIntensity * r.total as real == SumOf(m, Intensity) as real
  {
    if |m| == 0 then Summary(0, SumOf(m, Duration), 0.0)
    else
      var average := SumOf(m, Intensity) as real / |m| as real;
      MeanTimesCount(SumOf(m, Intensity) as real, |m| as real);
      Summary(|m|, SumOf(m, Duration), average)
  }

  lemma MeanTimesCount(sum: real, n: real)
    requires n > 0.0
    ensures sum / n * n == sum
  {
  }

  /** `WorkoutSummary`: the figures over this month's workouts. */
  function SummaryOf(ws: seq<Workout>, today: int): (r: Summary)
    ensures r.total <= |ws|
    ensures r.total == 0 ==> r.totalDuration == 0 && r.averageIntensity == 0.0
  {
    Summarize(MonthWorkouts(ws, today))
  }

  /** Logging a workout today adds one workout and its minutes to the summary. */
  lemma SummaryAfterLogging(w: Workout, ws: seq<Workout>, today: int)
    requires w.date == today
    ensures SummaryOf([w] + ws, today).total == SummaryOf(ws, today).total + 1
    ensures SummaryOf([w] + ws, today).totalDuration == SummaryOf(ws, today).totalDuration + w.duration
  {
    assert ([w] + ws)[1..] == ws;
  }

  /** With every intensity on the form's 1 to 10 scale, so is this month's average. */
  lemma AverageOnScale(ws: seq<Workout>, today: int)
    requires forall k :: 0 <= k < |ws| ==> 1 <= ws[k].intensity <= 10
    ensures SummaryOf(ws, today).total > 0 ==> 1.0 <= SummaryOf(ws, today).averageIntensity <= 10.0
  {
    var m := MonthWorkouts(ws, today);
    forall k | 0 <= k < |m| ensures 1 <= Intensity(m[k]) <= 10 {
      assert m[k] in ws;
    }
    MeanOnScale(m);
  }

  lemma MeanOnScale(m: seq<Workout>)
    requires forall k :: 0 <= k < |m| ==> 1 <= Intensity(m[k]) <= 10
    ensures |m| > 0 ==> 1.0 <= Summarize(m).averageIntensity <= 10.0
  {
    if |m| > 0 {
      SumBounds(m, Intensity);
      AverageBounds(Summarize(m).averageIntensity, |m| as real, SumOf(m, Intensity) as real);
    }
  }

  /** A sum of `n` terms on the 1 to 10 scale lies between `n` and `10 * n`. */
  lemma {:induction false} SumBounds<T>(s: seq<T>, f: T -> int)
    requires forall k :: 0 <= k < |s| ==> 1 <= f(s[k]) <= 10
    ensures |s| <= SumOf(s, f) <= 10 * |s|
  {
    if s != [] {
      SumBounds(s[1..], f);
    }
  }

  lemma AverageBounds(a: real, n: real, sum: real)
    requires n > 0.0 && a * n == sum && n <= sum <= 10.0 * n
    ensures 1.0 <= a <= 10.0
  {
  }

  // ---------------------------------------------------------------- personal bests

  datatype Measure = ByDuration | ByIntensity

  function Value(w: Workout, m: Measure): int {
    if m == ByDuration then w.duration else w.intensity
  }

  /** The `reduce` of `PersonalBests`, as the index of the workout it ends on; `None`
    * is the seed (a record of 0). A later workout replaces the record only when it
    * is strictly greater. */
  function BestIndex(ws: seq<Workout>, m: Measure): (r: Option<nat>)
    ensures r.None? ==> forall k :: 0 <= k < |ws| ==> Value(ws[k], m) <= 0
    ensures r.Some? ==> r.value < |ws| && Value(ws[r.value], m) > 0
    ensures r.Some? ==> forall k :: 0 <= k < |ws| ==> Value(ws[k], m) <= Value(ws[r.value], m)
    ensures r.Some? ==> forall k :: 0 <= k < r.value ==> Value(ws[k], m) < Value(ws[r.value], m)
  {
    if ws == [] then None
    else
      var prev := BestIndex(ws[..|ws| - 1], m);
      var record := if prev.Some? then Value(ws[prev.value], m) else 0;
      if Value(ws[|ws| - 1], m) > record then Some(|ws| - 1) else prev
  }

  /** A personal best as shown: the value and the day (none when the seed wins). */
  datatype Best = Best(value: int, date: Option<int>)

  function PersonalBest(ws: seq<Workout>, m: Measure): (b: Best)
    ensures b.value >= 0 && forall k :: 0 <= k < |ws| ==> Value(ws[k], m) <= b.value
    ensures b.date.None? <==> b.value == 0
    ensures b.date.Some? ==> exists k :: 0 <= k < |ws| && Value(ws[k], m) == b.value && ws[k].date == b.date.value
  {
    match BestIndex(ws, m)
    case None => Best(0, None)
    case Some(i) => Best(Value(ws[i], m), Some(ws[i].date))
  }

  /** Logging a workout that beats the record makes it the new record. */
  lemma NewRecord(ws: seq<Workout>, w: Workout, m: Measure)
    requires Value(w, m) > PersonalBest(ws, m).value
    ensures PersonalBest(ws + [w], m) == Best(Value(w, m), Some(w.date))
  {
    assert (ws + [w])[..|ws|] == ws;
  }

  // ---------------------------------------------------------------- the app

  class App {
    var workouts: seq<Workout>
    var goals: seq<Goal>
    var workoutDraft: WorkoutDraft
    var goalDraft: GoalDraft

    constructor()
      ensures workouts == [] && goals == InitialGoals
      ensures workoutDraft == BlankWorkoutDraft && goalDraft == BlankGoalDraft
    {
      workouts, goals := [], InitialGoals;
      workoutDraft, goalDraft := BlankWorkoutDraft, BlankGoalDraft;
    }

    /** Typing in the workout form. */
    method EditWorkout(d: WorkoutDraft)
      modifies this`workoutDraft
      ensures workoutDraft == d
    {
      workoutDraft := d;
    }

    /** The form's submit followed by `handleAddWorkout`: the new workout goes first and
      * the form is cleared; an incomplete form changes nothing. */
    method LogWorkout(today: int)
      modifies this`workouts, this`workoutDraft
      ensures SubmitWorkout(old(workoutDraft), today).Some? ==>
        workouts == [SubmitWorkout(old(workoutDraft), today).value] + old(workouts) && workoutDraft == BlankWorkoutDraft
      ensures SubmitWorkout(old(workoutDraft), today).None? ==> workouts == old(workouts) && workoutDraft == old(workoutDraft)
    {
      var r := SubmitWorkout(workoutDraft, today);
      if r.Some? {
        workouts := [r.value] + workouts;
        workoutDraft := BlankWorkoutDraft;
      }
    }

    /** Typing in the goal form. */
    method EditGoal(d: GoalDraft)
      modifies this`goalDraft
      ensures goalDraft == d
    {
      goalDraft := d;
    }

    /** The goal form's submit followed by `handleAddGoal`: the new goal goes last. */
    method AddGoal(now: int)
      modifies this`goals, this`goalDraft
      ensures SubmitGoal(old(goalDraft), now).Some? ==>
        goals == old(goals) + [SubmitGoal(old(goalDraft), now).value] && goalDraft == BlankGoalDraft
      ensures SubmitGoal(old(goalDraft), now).None? ==> goals == old(goals) && goalDraft == old(goalDraft)
    {
      var r := SubmitGoal(goalDraft, now);
      if r.Some? {
        goals := goals + [r.value];
        goalDraft := BlankGoalDraft;
      }
    }

    /** A goal's progress input (`parseFloat(value) || 0` is the argument). */
    method UpdateGoal(id: int, progress: real)
      modifies this`goals
      ensures goals == WithProgress(old(goals), id, progress)
    {
      goals := WithProgress(goals, id, progress);
    }

    /** `StreakTracker`'s figure for the current list. */
    method Streak(today: int) returns (streak: nat)
      ensures streak == StreakFrom(workouts, today) && streak <= |workouts|
    {
      streak := CalculateStreak(workouts, today);
    }
  }
}
