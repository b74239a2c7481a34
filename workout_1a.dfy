/** The simpler fitness tracker of src/tasks/41302/1a.jsx: `addWorkout`, the seven-day
  * "streak", the monthly summary with intensity weights, the personal bests and the
  * goal progress bars. Dates are millisecond timestamps and "now" is a parameter. */
module WorkoutA {
  import opened Seqs
  import opened Calendar

  /** A workout; `intensity` is "low", "medium" or "high" (any other text weighs 1). */
  datatype Workout = Workout(id: int, kind: string, duration: int, intensity: string, date: int)

  /** What the form hands to `addWorkout`. */
  datatype NewWorkout = NewWorkout(kind: string, duration: int, intensity: string)

  /** The mock list the app starts from: one medium cardio workout of 30 minutes. */
  function MockWorkouts(now: int): seq<Workout> {
    [Workout(1, "cardio", 30, "medium", now)]
  }

  /** A goal bar: a workout type and its target count. */
  datatype GoalEntry = GoalEntry(kind: string, target: real)

  /** `{ cardio: 100, strength: 50 }`, in key order. */
  const Goals: seq<GoalEntry> := [GoalEntry("cardio", 100.0), GoalEntry("strength", 50.0)]

  /** Ids are positions plus one, as `addWorkout` assigns them. */
  predicate IdsArePositions(ws: seq<Workout>) {
    forall k :: 0 <= k < |ws| ==> ws[k].id == k + 1
  }

  /** Such ids never repeat. */
  lemma IdsDistinct(ws: seq<Workout>, i: int, j: int)
    requires IdsArePositions(ws) && 0 <= i < j < |ws|
    ensures ws[i].id != ws[j].id
  {
  }

  // ---------------------------------------------------------------- streak

  /** Dated after the moment seven days before now. */
  predicate InLastWeek(w: Workout, now: int) {
    w.date > now - 7 * MsPerDay
  }

  /** `currentStreak`: not a streak, but the number of workouts of the last seven days. */
  function CurrentStreak(ws: seq<Workout>, now: int): (n: nat)
    ensures n <= |ws|
  {
    |Filter(ws, w => InLastWeek(w, now))|
  }

  /** A workout logged now counts, and it is the only change. */
  lemma StreakAfterAdding(ws: seq<Workout>, w: Workout, now: int)
    requires w.date == now
    ensures CurrentStreak(ws + [w], now) == CurrentStreak(ws, now) + 1
  {
    FilterConcat(ws, [w], w => InLastWeek(w, now));
  }

  /** Every workout of the last week counts, wherever it is in the list. */
  lemma {:induction false} StreakCountsRecent(ws: seq<Workout>, now: int)
    requires forall k :: 0 <= k < |ws| ==> InLastWeek(ws[k], now)
    ensures CurrentStreak(ws, now) == |ws|
  {
    FilterKeepsAll(ws, w => InLastWeek(w, now));
  }

  // ---------------------------------------------------------------- monthly summary

  /** The intensity weights: high 3, medium 2, anything else 1. */
  function Weight(intensity: string): (r: int)
    ensures 1 <= r <= 3
    ensures r == 3 <==> intensity == "high"
    ensures r == 2 <==> intensity == "medium"
  {
    if intensity == "high" then 3 else if intensity == "medium" then 2 else 1
  }

  function WorkoutWeight(w: Workout): int { Weight(w.intensity) }

  function Duration(w: Workout): int { w.duration }

  /** `getMonth` of a timestamp: the month only, without the year. */
  function MonthNumber(ms: int): int {
    MonthOf(DayOf(ms)).month
  }

  predicate SameMonth(w: Workout, now: int) {
    MonthNumber(w.date) == MonthNumber(now)
  }

  function MonthWorkouts(ws: seq<Workout>, now: int): seq<Workout> {
    Filter(ws, w => SameMonth(w, now))
  }

  /** The three figures of `monthlySummary`. */
  datatype Summary = Summary(total: nat, duration: int, avgIntensity: real)

  /** The figures over a list: count, minutes, and mean weight (`0 / 0` is NaN, which
    * `|| 0` turns into 0). */
  function Summarize(m: seq<Workout>): (r: Summary)
    ensures r.total == |m| && r.duration == SumOf(m, Duration)
    ensures r.total == 0 ==> r.avgIntensity == 0.0
    ensures r.total > 0 ==> r.avgIntensity * r.total as real == SumOf(m, WorkoutWeight) as real
  {
    if |m| == 0 then Summary(0, 0, 0.0)
    else
      MeanTimesCount(SumOf(m, WorkoutWeight) as real, |m| as real);
      Summary(|m|, SumOf(m, Duration), SumOf(m, WorkoutWeight) as real / |m| as real)
  }

  lemma MeanTimesCount(sum: real, n: real)
    requires n > 0.0
    ensures sum / n * n == sum
  {
  }

  /** `monthlySummary`: the figures over the workouts whose month is this month. */
  function MonthlySummary(ws: seq<Workout>, now: int): (r: Summary)
    ensures r.total <= |ws|
    ensures r.total == 0 ==> r.duration == 0 && r.avgIntensity == 0.0
  {
    Summarize(MonthWorkouts(ws, now))
  }

  /** The average weight is between 1 and 3 whenever there is a workout this month. */
  lemma AverageWeightInRange(ws: seq<Workout>, now: int)
    ensures MonthlySummary(ws, now).total > 0 ==> 1.0 <= MonthlySummary(ws, now).avgIntensity <= 3.0
  {
    MeanWeightInRange(MonthWorkouts(ws, now));
  }

  lemma MeanWeightInRange(m: seq<Workout>)
    ensures |m| > 0 ==> 1.0 <= Summarize(m).avgIntensity <= 3.0
  {
    if |m| > 0 {
      WeightSumBounds(m);
      MeanBetween(Summarize(m).avgIntensity, |m| as real, SumOf(m, WorkoutWeight) as real);
    }
  }

  lemma {:induction false} WeightSumBounds(m: seq<Workout>)
    ensures |m| <= SumOf(m, WorkoutWeight) <= 3 * |m|
  {
    if m != [] {
      WeightSumBounds(m[1..]);
    }
  }

  lemma MeanBetween(a: real, n: real, sum: real)
    requires n > 0.0 && a * n == sum && n <= sum <= 3.0 * n
    ensures 1.0 <= a <= 3.0
  {
  }

  /** Only the month is compared: on the first of January 1971 a workout of the first
    * of January 1970 is counted as this month's. */
  lemma MonthIgnoresYear(w: Workout)
    requires w.date == 0
    ensures SameMonth(w, 365 * MsPerDay)
    ensures MonthOf(DayOf(w.date)).year != MonthOf(DayOf(365 * MsPerDay)).year
  {
    NewYears();
    assert DayOf(365 * MsPerDay) == 365;
  }

  // ---------------------------------------------------------------- personal bests

  /** `Math.max` over a list: minus infinity for the empty list. */
  datatype Peak = MinusInfinity | Peak(value: int)

  function MaxOf(xs: seq<int>): (r: Peak)
    ensures r.MinusInfinity? <==> xs == []
    ensures r.Peak? ==> r.value in xs && forall k :: 0 <= k < |xs| ==> xs[k] <= r.value
  {
    if xs == [] then MinusInfinity
    else
      var rest := MaxOf(xs[1..]);
      if rest.Peak? && rest.value > xs[0] then rest else Peak(xs[0])
  }

  /** `personalBest`: the longest duration and the highest intensity weight. */
  datatype Bests = Bests(longest: Peak, highestIntensity: Peak)

  function PersonalBest(ws: seq<Workout>): (b: Bests)
    ensures ws == [] ==> b == Bests(MinusInfinity, MinusInfinity)
    ensures ws != [] ==> b.highestIntensity.Peak? && 1 <= b.highestIntensity.value <= 3
  {
    var ds := seq(|ws|, k requires 0 <= k < |ws| => ws[k].duration);
    var weights := seq(|ws|, k requires 0 <= k < |ws| => WorkoutWeight(ws[k]));
    var b := Bests(MaxOf(ds), MaxOf(weights));
    assert b.highestIntensity.Peak? ==> b.highestIntensity.value in weights;
    b
  }

  /** The longest workout is one of the workouts, and none is longer. */
  lemma LongestIsAWorkout(ws: seq<Workout>)
    requires ws != []
    ensures PersonalBest(ws).longest.Peak?
    ensures exists k :: 0 <= k < |ws| && ws[k].duration == PersonalBest(ws).longest.value
    ensures forall k :: 0 <= k < |ws| ==> ws[k].duration <= PersonalBest(ws).longest.value
  {
    var ds := seq(|ws|, k requires 0 <= k < |ws| => ws[k].duration);
    assert forall k :: 0 <= k < |ws| ==> ds[k] == ws[k].duration;
    var v := MaxOf(ds).value;
    var k :| 0 <= k < |ds| && ds[k] == v;
    assert ws[k].duration == v;
  }

  // ---------------------------------------------------------------- goals

  predicate OfKind(w: Workout, kind: string) {
    w.kind == kind
  }

  function CountOfKind(ws: seq<Workout>, kind: string): nat {
    |Filter(ws, w => OfKind(w, kind))|
  }

  /** A goal bar's value: the number of workouts of that type over the target, as a
    * percentage. */
  function Progress(ws: seq<Workout>, g: GoalEntry): (p: real)
    requires g.target > 0.0
    ensures p >= 0.0
    ensures p == 100.0 <==> CountOfKind(ws, g.kind) as real == g.target
  {
    ProgressScale(CountOfKind(ws, g.kind) as real, g.target);
    CountOfKind(ws, g.kind) as real / g.target * 100.0
  }

  lemma ProgressScale(c: real, t: real)
    requires t > 0.0 && c >= 0.0
    ensures c / t * 100.0 >= 0.0
    ensures c / t * 100.0 == 100.0 <==> c == t
  {
    assert c / t * t == c;
  }

  /** Each workout of the goal's type adds `100 / target` points. */
  lemma ProgressStep(ws: seq<Workout>, w: Workout, g: GoalEntry)
    requires g.target > 0.0 && w.kind == g.kind
    ensures Progress(ws + [w], g) == Progress(ws, g) + 100.0 / g.target
  {
    FilterConcat(ws, [w], w' => OfKind(w', g.kind));
    assert CountOfKind(ws + [w], g.kind) == CountOfKind(ws, g.kind) + 1;
    OneMore(CountOfKind(ws, g.kind) as real, g.target);
  }

  lemma OneMore(c: real, t: real)
    requires t > 0.0
    ensures (c + 1.0) / t * 100.0 == c / t * 100.0 + 100.0 / t
  {
    assert (c + 1.0) / t == c / t + 1.0 / t;
  }

  // ---------------------------------------------------------------- the app

  class App {
    var workouts: seq<Workout>

    ghost predicate Valid()
      reads this
    {
      IdsArePositions(workouts)
    }

    /** The app with its mock workout, dated at start-up. */
    constructor(now: int)
      ensures Valid() && workouts == MockWorkouts(now)
    {
      workouts := MockWorkouts(now);
    }

    /** `addWorkout`: the workout goes last, with id length + 1 and the current time. */
    method AddWorkout(w: NewWorkout, now: int)
      requires Valid()
      modifies this`workouts
      ensures Valid()
      ensures workouts == old(workouts) + [Workout(|old(workouts)| + 1, w.kind, w.duration, w.intensity, now)]
    {
      workouts := workouts + [Workout(|workouts| + 1, w.kind, w.duration, w.intensity, now)];
    }
  }
}
