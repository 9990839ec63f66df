/**
  Helpers over training plans: countdown and current week, ordering,
  duration labels, progress, week lookups and statistics, grouping by
  sport, the next workout, and the wizard's form validator.

  "Now" is a parameter: a day number plus the fraction of that day that
  has elapsed, because whole-day differences between a midnight and the
  current instant truncate toward zero.
*/
module PlanUtils {
  import opened Wrappers
  import opened Text
  import opened Numbers
  import opened Sorting
  import opened PlanTypes

  /** A fraction of a day, midnight included. */
  type DayFraction = r: real | 0.0 <= r < 1.0

  /** The current instant. */
  datatype Now = Now(day: int, time: DayFraction)

  // ---------------------------------------------------------------------
  // Countdown (addCountdownToTrainingPlans)

  /** `differenceInDays(midnight of day, now)`: whole days still to come. */
  function DaysFromNow(day: int, now: Now): (d: int)
    ensures d < 0 <==> day < now.day
    ensures d == 0 <==> day == now.day || (day == now.day + 1 && now.time > 0.0)
    ensures (d as real) - 1.0 < (day - now.day) as real - now.time <= (d as real) + 1.0
  {
    Trunc((day - now.day) as real - now.time)
  }

  /** `differenceInDays(now, midnight of day)`: whole days elapsed since. */
  function DaysSince(day: int, now: Now): (d: int)
    ensures d == -DaysFromNow(day, now)
  {
    TruncOdd((now.day - day) as real + now.time);
    Trunc((now.day - day) as real + now.time)
  }

  /** A plan with countdown fields as `addCountdownToTrainingPlans` makes
      them: past exactly when the countdown is negative, and a current
      week, when there is one, that numbers an existing weekly plan. */
  predicate WellFormed(p: PlanWithCountdown) {
    (p.isPast <==> p.daysUntilRace < 0)
    && (p.currentWeek.Some? ==> !p.isPast && 1 <= p.currentWeek.value <= |p.plan.weeklyPlans|)
  }

  /** The number of the plan week that contains today, if the plan is not
      past and today falls inside its weekly plans. */
  function CurrentWeek(plan: TrainingPlan, isPast: bool, now: Now): (cw: Option<int>)
    ensures cw.Some? ==> !isPast && 1 <= cw.value <= |plan.weeklyPlans|
    ensures cw.Some? ==> (cw.value - 1) * 7 <= DaysSince(plan.planStartDate, now) < cw.value * 7
    ensures cw.None? ==>
      (isPast || DaysSince(plan.planStartDate, now) < 0 || DaysSince(plan.planStartDate, now) >= 7 * |plan.weeklyPlans|)
  {
    if !isPast && |plan.weeklyPlans| > 0 then
      var weeksSinceStart := DaysSince(plan.planStartDate, now) / 7;
      if 0 <= weeksSinceStart < |plan.weeklyPlans| then Some(weeksSinceStart + 1) else None
    else None
  }

  function WithCountdown(plan: TrainingPlan, now: Now): (p: PlanWithCountdown)
    ensures p.plan == plan && WellFormed(p)
    ensures p.daysUntilRace == DaysFromNow(plan.raceDate, now)
    ensures p.isPast <==> plan.raceDate < now.day
  {
    var days := DaysFromNow(plan.raceDate, now);
    PlanWithCountdown(plan, days, days < 0, CurrentWeek(plan, days < 0, now))
  }

  /** `addCountdownToTrainingPlans`. */
  function AddCountdownToTrainingPlans(plans: seq<TrainingPlan>, now: Now): (r: seq<PlanWithCountdown>)
    ensures |r| == |plans|
    ensures forall i :: 0 <= i < |r| ==> r[i] == WithCountdown(plans[i], now) && WellFormed(r[i])
  {
    if plans == [] then [] else [WithCountdown(plans[0], now)] + AddCountdownToTrainingPlans(plans[1..], now)
  }

  // ---------------------------------------------------------------------
  // Ordering and filtering

  /** Upcoming plans first by ascending race date, then past plans by
      descending race date. */
  function PlanKey(p: PlanWithCountdown): Key {
    if p.isPast then Key(1, -p.plan.raceDate) else Key(0, p.plan.raceDate)
  }

  /** `sortTrainingPlansByRaceDate`: a sorted copy. */
  function SortTrainingPlansByRaceDate(ps: seq<PlanWithCountdown>): (r: seq<PlanWithCountdown>)
    ensures multiset(r) == multiset(ps)
    ensures forall i, j :: 0 <= i < j < |r| && r[i].isPast ==> r[j].isPast
    ensures forall i, j :: 0 <= i < j < |r| && !r[i].isPast && !r[j].isPast ==> r[i].plan.raceDate <= r[j].plan.raceDate
    ensures forall i, j :: 0 <= i < j < |r| && r[i].isPast && r[j].isPast ==> r[i].plan.raceDate >= r[j].plan.raceDate
  {
    var s := SortBy(ps, PlanKey);
    assert forall i, j :: 0 <= i < j < |s| ==> KeyLe(PlanKey(s[i]), PlanKey(s[j]));
    s
  }

  function IsActive(p: PlanWithCountdown): bool { !p.isPast }

  /** `getActiveTrainingPlans`: the plans whose race is still ahead. */
  function GetActiveTrainingPlans(ps: seq<PlanWithCountdown>): (r: seq<PlanWithCountdown>)
    ensures forall p :: p in r <==> p in ps && !p.isPast
    ensures |r| <= |ps|
  {
    var r := Filter(ps, IsActive);
    assert forall p :: p in r ==> p in multiset(ps);
    r
  }

  /** Filtering keeps the relative order: the active plans of a
      concatenation are the active plans of each part, in turn. */
  lemma ActivePlansOfAppend(a: seq<PlanWithCountdown>, b: seq<PlanWithCountdown>)
    ensures GetActiveTrainingPlans(a + b) == GetActiveTrainingPlans(a) + GetActiveTrainingPlans(b)
  {
    FilterAppend(a, b, IsActive);
  }

  // ---------------------------------------------------------------------
  // Duration labels

  /** `formatPlanDuration`: weeks below 4, else whole months of 4 weeks
      with the remaining weeks. */
  function FormatPlanDuration(weeks: int): (s: string)
    ensures weeks < 4 ==> ReadInt(s) == Some((weeks, if weeks == 1 then " week" else " weeks"))
    ensures weeks >= 4 && weeks % 4 == 0 ==>
      ReadInt(s) == Some((weeks / 4, if weeks / 4 == 1 then " month" else " months"))
    ensures weeks >= 4 && weeks % 4 != 0 ==>
      ReadInt(s).Some? && ReadInt(s).value.0 == weeks / 4
      && StartsWith(ReadInt(s).value.1, "m ")
      && ReadNat(ReadInt(s).value.1[2..]) == Some((weeks % 4, "w"))
  {
    if weeks < 4 then
      var suffix := if weeks == 1 then " week" else " weeks";
      ReadIntToString(weeks, suffix);
      IntToString(weeks) + suffix
    else
      var months := weeks / 4;
      var remainingWeeks := weeks % 4;
      if remainingWeeks == 0 then
        var suffix := if months == 1 then " month" else " months";
        ReadIntToString(months, suffix);
        IntToString(months) + suffix
      else
        var rest := "m " + NatToString(remainingWeeks) + "w";
        ReadIntToString(months, rest);
        ReadNatToString(remainingWeeks, "w");
        assert rest[2..] == NatToString(remainingWeeks) + "w";
        IntToString(months) + rest
  }

  /** Reads a plan-duration label back to a number of weeks. */
  function ParsePlanDuration(s: string): Option<int> {
    match ReadInt(s)
    case None => None
    case Some((n, rest)) =>
      if rest == " week" || rest == " weeks" then Some(n)
      else if rest == " month" || rest == " months" then Some(4 * n)
      else if StartsWith(rest, "m ") then
        match ReadNat(rest[2..])
        case Some((k, tail)) => if tail == "w" then Some(4 * n + k) else None
        case None => None
      else None
  }

  /** The label determines the number of weeks. */
  lemma PlanDurationRoundTrip(weeks: int)
    ensures ParsePlanDuration(FormatPlanDuration(weeks)) == Some(weeks)
  {
    var s := FormatPlanDuration(weeks);
    if weeks >= 4 && weeks % 4 != 0 {
      var rest := ReadInt(s).value.1;
      assert rest[0] == 'm';
      assert rest != " week" && rest != " weeks" && rest != " month" && rest != " months";
      assert ParsePlanDuration(s) == Some(4 * (weeks / 4) + weeks % 4);
    }
  }

  /** `formatWorkoutDuration`: minutes below 60, else whole hours with
      the remaining minutes. */
  function FormatWorkoutDuration(minutes: int): (s: string)
    ensures minutes < 60 ==> ReadInt(s) == Some((minutes, "min"))
    ensures minutes >= 60 && minutes % 60 == 0 ==> ReadInt(s) == Some((minutes / 60, "h"))
    ensures minutes >= 60 && minutes % 60 != 0 ==>
      ReadInt(s).Some? && ReadInt(s).value.0 == minutes / 60
      && StartsWith(ReadInt(s).value.1, "h ")
      && ReadNat(ReadInt(s).value.1[2..]) == Some((minutes % 60, "m"))
  {
    if minutes < 60 then
      ReadIntToString(minutes, "min");
      IntToString(minutes) + "min"
    else
      var hours := minutes / 60;
      var remainingMinutes := minutes % 60;
      if remainingMinutes == 0 then
        ReadIntToString(hours, "h");
        IntToString(hours) + "h"
      else
        var rest := "h " + NatToString(remainingMinutes) + "m";
        ReadIntToString(hours, rest);
        ReadNatToString(remainingMinutes, "m");
        assert rest[2..] == NatToString(remainingMinutes) + "m";
        IntToString(hours) + rest
  }

  /** Reads a workout-duration label back to minutes. */
  function ParseWorkoutDuration(s: string): Option<int> {
    match ReadInt(s)
    case None => None
    case Some((n, rest)) =>
      if rest == "min" then Some(n)
      else if rest == "h" then Some(60 * n)
      else if StartsWith(rest, "h ") then
        match ReadNat(rest[2..])
        case Some((k, tail)) => if tail == "m" then Some(60 * n + k) else None
        case None => None
      else None
  }

  /** The label determines the number of minutes. */
  lemma WorkoutDurationRoundTrip(minutes: int)
    ensures ParseWorkoutDuration(FormatWorkoutDuration(minutes)) == Some(minutes)
  {
    var s := FormatWorkoutDuration(minutes);
    if minutes >= 60 && minutes % 60 != 0 {
      assert ReadInt(s).value.1 != "min" && ReadInt(s).value.1 != "h" by {
        assert |ReadInt(s).value.1| > 3;
      }
    }
  }

  /** `formatPace`: the pace text as given, or empty when absent. */
  function FormatPace(pace: Option<string>): (s: string)
    ensures pace.None? ==> s == ""
    ensures pace.Some? ==> s == pace.value
  {
    if pace.None? || pace.value == "" then "" else pace.value
  }

  /** `getPhaseColor`. */
  function GetPhaseColor(phase: WorkoutPhase): (c: string)
    ensures |c| == 7 && c[0] == '#'
  {
    PhaseColorsTotal();
    PhaseColors()[phase]
  }

  // ---------------------------------------------------------------------
  // Progress

  /** `calculatePlanProgress` for a plan as the countdown produced it.
      A zero duration divides to +Infinity, which the cap turns into 100. */
  function CalculatePlanProgress(p: PlanWithCountdown): (r: int)
    requires WellFormed(p)
    ensures p.isPast ==> r == 100
    ensures !p.isPast && p.currentWeek.None? ==> r == 0
    ensures r <= 100
    ensures p.plan.planDurationWeeks >= 0 ==> 0 <= r
    ensures !p.isPast && p.currentWeek.Some? && p.plan.planDurationWeeks == 0 ==> r == 100
    ensures !p.isPast && p.currentWeek.Some? && p.plan.planDurationWeeks != 0 ==>
      (r as real) - 0.5 <= (p.currentWeek.value * 100) as real / p.plan.planDurationWeeks as real
    ensures !p.isPast && p.currentWeek.Some? && p.plan.planDurationWeeks != 0 && r < 100 ==>
      (p.currentWeek.value * 100) as real / p.plan.planDurationWeeks as real < (r as real) + 0.5
  {
    if p.isPast then 100
    else if !Truthy(p.currentWeek) then 0
    else if p.plan.planDurationWeeks == 0 then 100
    else Min(100, Round((p.currentWeek.value * 100) as real / p.plan.planDurationWeeks as real))
  }

  /** Progress never goes down as the current week advances (for a
      plan whose duration is not negative). */
  lemma ProgressMonotone(p: PlanWithCountdown, q: PlanWithCountdown)
    requires WellFormed(p) && WellFormed(q)
    requires p.plan == q.plan && !p.isPast && !q.isPast && p.plan.planDurationWeeks >= 0
    requires p.currentWeek.Some? && q.currentWeek.Some? && p.currentWeek.value <= q.currentWeek.value
    ensures CalculatePlanProgress(p) <= CalculatePlanProgress(q)
  {
    var d := p.plan.planDurationWeeks;
    if d != 0 {
      var x := (p.currentWeek.value * 100) as real / d as real;
      var y := (q.currentWeek.value * 100) as real / d as real;
      assert x <= y;
      RoundMonotone(x, y);
    }
  }

  // ---------------------------------------------------------------------
  // Week lookups

  /** `k` is the first weekly plan numbered `n`. */
  predicate FirstWeekAt(weeks: seq<WeeklyPlan>, k: int, n: int) {
    0 <= k < |weeks| && weeks[k].weekNumber == n
    && forall j :: 0 <= j < k ==> weeks[j].weekNumber != n
  }

  /** `weekly_plans.find(w => w.week_number === n)`, as an index. */
  function FindWeek(weeks: seq<WeeklyPlan>, n: int): (r: Option<nat>)
    ensures r.Some? ==> r.value < |weeks| && weeks[r.value].weekNumber == n
    ensures r.Some? ==> forall k :: 0 <= k < r.value ==> weeks[k].weekNumber != n
    ensures r.None? ==> forall k :: 0 <= k < |weeks| ==> weeks[k].weekNumber != n
  {
    if weeks == [] then None
    else if weeks[0].weekNumber == n then Some(0)
    else match FindWeek(weeks[1..], n)
      case Some(k) => Some(k + 1)
      case None => None
  }

  /** `getCurrentPhase`: the phase of the first weekly plan numbered with
      the current week, or `None` for a past plan or no current week. */
  function GetCurrentPhase(p: PlanWithCountdown): (r: Option<WorkoutPhase>)
    ensures p.isPast || !Truthy(p.currentWeek) ==> r.None?
    ensures r.Some? ==> exists k :: FirstWeekAt(p.plan.weeklyPlans, k, p.currentWeek.value)
                                    && p.plan.weeklyPlans[k].phase == r.value
    ensures r.None? && !p.isPast && Truthy(p.currentWeek) ==>
      forall k :: 0 <= k < |p.plan.weeklyPlans| ==> p.plan.weeklyPlans[k].weekNumber != p.currentWeek.value
  {
    if p.isPast || !Truthy(p.currentWeek) then None
    else match FindWeek(p.plan.weeklyPlans, p.currentWeek.value)
      case Some(k) => Some(p.plan.weeklyPlans[k].phase)
      case None => None
  }

  /** `getWeekWorkouts`: the workouts of the first weekly plan numbered
      `n`, or none when there is no such week. */
  function GetWeekWorkouts(plan: TrainingPlan, n: int): (r: seq<DailyWorkout>)
    ensures (forall k :: 0 <= k < |plan.weeklyPlans| ==> plan.weeklyPlans[k].weekNumber != n) ==> r == []
    ensures forall k :: FirstWeekAt(plan.weeklyPlans, k, n) ==> r == plan.weeklyPlans[k].workouts
  {
    match FindWeek(plan.weeklyPlans, n)
    case Some(k) => plan.weeklyPlans[k].workouts
    case None => []
  }

  // ---------------------------------------------------------------------
  // Week statistics

  function IsRest(w: DailyWorkout): bool { w.workoutType == Rest }
  function IsTraining(w: DailyWorkout): bool { w.workoutType != Rest }

  /** `w.target_tss || 0` and `w.target_distance_km || 0`. */
  function TssOf(w: DailyWorkout): real { w.targetTss.GetOr(0.0) }
  function DistanceOf(w: DailyWorkout): real { w.targetDistanceKm.GetOr(0.0) }

  function SumTss(ws: seq<DailyWorkout>): real {
    if ws == [] then 0.0 else SumTss(ws[..|ws| - 1]) + TssOf(ws[|ws| - 1])
  }

  function SumDistance(ws: seq<DailyWorkout>): real {
    if ws == [] then 0.0 else SumDistance(ws[..|ws| - 1]) + DistanceOf(ws[|ws| - 1])
  }

  function SumMinutes(ws: seq<DailyWorkout>): int {
    if ws == [] then 0 else SumMinutes(ws[..|ws| - 1]) + ws[|ws| - 1].durationMinutes
  }

  /** With no negative targets, the total is positive exactly when some
      workout has a positive target. */
  lemma {:induction false} SumTssPositive(ws: seq<DailyWorkout>)
    requires forall i :: 0 <= i < |ws| ==> TssOf(ws[i]) >= 0.0
    ensures SumTss(ws) >= 0.0
    ensures SumTss(ws) > 0.0 <==> exists i :: 0 <= i < |ws| && TssOf(ws[i]) > 0.0
  {
    if ws != [] {
      var init := ws[..|ws| - 1];
      assert forall i :: 0 <= i < |init| ==> init[i] == ws[i];
      SumTssPositive(init);
      if SumTss(init) > 0.0 {
        var i :| 0 <= i < |init| && TssOf(init[i]) > 0.0;
        assert TssOf(ws[i]) > 0.0;
      }
      if exists i :: 0 <= i < |ws| && TssOf(ws[i]) > 0.0 {
        var i :| 0 <= i < |ws| && TssOf(ws[i]) > 0.0;
        if i < |ws| - 1 {
          assert TssOf(init[i]) > 0.0;
        }
      }
    }
  }

  datatype WeekStats = WeekStats(
    totalWorkouts: nat,
    restDays: nat,
    totalTss: Option<real>,
    totalDistance: Option<real>,
    volumeHours: real)

  /** `getWeekStats`: training and rest days split the week; the totals
      are left out when they are not positive. */
  function GetWeekStats(week: WeeklyPlan): (s: WeekStats)
    ensures s.totalWorkouts + s.restDays == |week.workouts|
    ensures s.restDays == |Filter(week.workouts, IsRest)|
    ensures s.totalTss.Some? <==> SumTss(week.workouts) > 0.0
    ensures s.totalTss.Some? ==> s.totalTss.value == SumTss(week.workouts)
    ensures s.totalDistance.Some? <==> SumDistance(week.workouts) > 0.0
    ensures s.totalDistance.Some? ==> s.totalDistance.value == SumDistance(week.workouts)
    ensures s.volumeHours == week.volumeHours
  {
    FilterComplement(week.workouts, IsRest, IsTraining);
    var tss := SumTss(week.workouts);
    var distance := SumDistance(week.workouts);
    WeekStats(
      |Filter(week.workouts, IsTraining)|,
      |Filter(week.workouts, IsRest)|,
      if tss > 0.0 then Some(tss) else None,
      if distance > 0.0 then Some(distance) else None,
      week.volumeHours)
  }

  // ---------------------------------------------------------------------
  // Grouping by sport (groupWorkoutsBySport)

  /** The training (non-rest) workouts of one sport, in their order. */
  function OfSport(ws: seq<DailyWorkout>, sport: string): seq<DailyWorkout> {
    if ws == [] then []
    else
      var last := ws[|ws| - 1];
      OfSport(ws[..|ws| - 1], sport) + (if IsTraining(last) && last.sport == sport then [last] else [])
  }

  /** The number of training workouts. */
  function TrainingCount(ws: seq<DailyWorkout>): nat {
    if ws == [] then 0
    else TrainingCount(ws[..|ws| - 1]) + (if IsTraining(ws[|ws| - 1]) then 1 else 0)
  }

  /** One entry of the accumulator object: a sport and its workouts. */
  datatype SportGroup = SportGroup(sport: string, workouts: seq<DailyWorkout>)

  /** One row of the weekly overview. */
  datatype SportSummary = SportSummary(sport: string, count: nat, totalMinutes: int, totalTss: real)

  function GroupSizes(groups: seq<SportGroup>): nat {
    if groups == [] then 0 else GroupSizes(groups[..|groups| - 1]) + |groups[|groups| - 1].workouts|
  }

  function SumCounts(rows: seq<SportSummary>): nat {
    if rows == [] then 0 else SumCounts(rows[..|rows| - 1]) + rows[|rows| - 1].count
  }

  predicate HasSport(groups: seq<SportGroup>, sport: string) {
    exists k :: 0 <= k < |groups| && groups[k].sport == sport
  }

  /** Looks a sport up in the accumulator; `|groups|` when it is absent. */
  function FindSport(groups: seq<SportGroup>, sport: string): (k: nat)
    ensures k <= |groups|
    ensures k < |groups| ==> groups[k].sport == sport
    ensures k == |groups| ==> forall j :: 0 <= j < |groups| ==> groups[j].sport != sport
  {
    if groups == [] then 0
    else if groups[0].sport == sport then 0
    else 1 + FindSport(groups[1..], sport)
  }

  lemma {:induction false} GroupSizesUpdate(groups: seq<SportGroup>, k: nat, g: SportGroup)
    requires k < |groups|
    ensures GroupSizes(groups[k := g]) == GroupSizes(groups) - |groups[k].workouts| + |g.workouts|
    decreases |groups|
  {
    var n := |groups| - 1;
    var updated := groups[k := g];
    if k == n {
      assert updated[..n] == groups[..n];
    } else {
      assert updated[..n] == groups[..n][k := g];
      GroupSizesUpdate(groups[..n], k, g);
    }
  }

  lemma GroupSizesAppend(groups: seq<SportGroup>, g: SportGroup)
    ensures GroupSizes(groups + [g]) == GroupSizes(groups) + |g.workouts|
  {
    assert (groups + [g])[..|groups|] == groups;
  }

  function Summarize(g: SportGroup): (row: SportSummary)
    ensures row.sport == g.sport && row.count == |g.workouts|
  {
    SportSummary(g.sport, |g.workouts|, SumMinutes(g.workouts), SumTss(g.workouts))
  }

  function Summaries(groups: seq<SportGroup>): (rows: seq<SportSummary>)
    ensures |rows| == |groups|
    ensures forall k :: 0 <= k < |groups| ==> rows[k] == Summarize(groups[k])
    ensures SumCounts(rows) == GroupSizes(groups)
  {
    if groups == [] then []
    else
      var n := |groups| - 1;
      var rows := Summaries(groups[..n]) + [Summarize(groups[n])];
      assert rows[..n] == Summaries(groups[..n]);
      rows
  }

  predicate DistinctSports(groups: seq<SportGroup>) {
    forall a, b :: 0 <= a < b < |groups| ==> groups[a].sport != groups[b].sport
  }

  ghost predicate GroupsHold(groups: seq<SportGroup>, seen: seq<DailyWorkout>) {
    forall k :: 0 <= k < |groups| ==> groups[k].workouts == OfSport(seen, groups[k].sport) && groups[k].workouts != []
  }

  ghost predicate GroupsCover(groups: seq<SportGroup>, seen: seq<DailyWorkout>) {
    forall j :: 0 <= j < |seen| && IsTraining(seen[j]) ==> HasSport(groups, seen[j].sport)
  }

  /** What the accumulator holds after reading the workouts `seen`: one
      group per sport with a training workout, holding exactly that
      sport's training workouts. */
  ghost predicate GroupsOf(groups: seq<SportGroup>, seen: seq<DailyWorkout>) {
    DistinctSports(groups) && GroupsHold(groups, seen) && GroupsCover(groups, seen)
    && GroupSizes(groups) == TrainingCount(seen)
  }

  /** The reducer: a rest day is skipped, a training workout is pushed onto
      its sport's group, which is created at the end when missing. */
  function AddToGroups(groups: seq<SportGroup>, w: DailyWorkout): seq<SportGroup> {
    if !IsTraining(w) then groups
    else
      var k := FindSport(groups, w.sport);
      if k < |groups| then groups[k := SportGroup(w.sport, groups[k].workouts + [w])]
      else groups + [SportGroup(w.sport, [w])]
  }

  lemma OfSportSnoc(seen: seq<DailyWorkout>, w: DailyWorkout, sport: string)
    ensures OfSport(seen + [w], sport) == OfSport(seen, sport) + (if IsTraining(w) && w.sport == sport then [w] else [])
  {
    assert (seen + [w])[..|seen|] == seen;
  }

  lemma TrainingCountSnoc(seen: seq<DailyWorkout>, w: DailyWorkout)
    ensures TrainingCount(seen + [w]) == TrainingCount(seen) + (if IsTraining(w) then 1 else 0)
  {
    assert (seen + [w])[..|seen|] == seen;
  }

  lemma AddToGroupsDistinct(groups: seq<SportGroup>, w: DailyWorkout)
    requires DistinctSports(groups)
    ensures DistinctSports(AddToGroups(groups, w))
  {
  }

  /** A sport none of whose workouts is a training workout has none. */
  lemma {:induction false} OfSportEmpty(seen: seq<DailyWorkout>, sport: string)
    requires forall j :: 0 <= j < |seen| && IsTraining(seen[j]) ==> seen[j].sport != sport
    ensures OfSport(seen, sport) == []
  {
    if seen != [] {
      var n := |seen| - 1;
      assert forall j :: 0 <= j < n ==> seen[..n][j] == seen[j];
      OfSportEmpty(seen[..n], sport);
    }
  }

  lemma AddToGroupsHold(groups: seq<SportGroup>, seen: seq<DailyWorkout>, w: DailyWorkout)
    requires DistinctSports(groups) && GroupsHold(groups, seen) && GroupsCover(groups, seen)
    ensures GroupsHold(AddToGroups(groups, w), seen + [w])
  {
    var next := AddToGroups(groups, w);
    var k := FindSport(groups, w.sport);
    forall m | 0 <= m < |next|
      ensures next[m].workouts == OfSport(seen + [w], next[m].sport) && next[m].workouts != []
    {
      OfSportSnoc(seen, w, next[m].sport);
      if !IsTraining(w) {
        assert next[m] == groups[m];
      } else if m < |groups| && m != k {
        assert next[m] == groups[m] && groups[m].sport != w.sport;
      } else if k < |groups| {
        assert next[m] == SportGroup(w.sport, groups[k].workouts + [w]);
      } else {
        assert next[m] == SportGroup(w.sport, [w]);
        forall j | 0 <= j < |seen| && IsTraining(seen[j]) ensures seen[j].sport != w.sport {
          assert HasSport(groups, seen[j].sport);
        }
        OfSportEmpty(seen, w.sport);
      }
    }
  }

  lemma AddToGroupsCover(groups: seq<SportGroup>, seen: seq<DailyWorkout>, w: DailyWorkout)
    requires GroupsCover(groups, seen)
    ensures GroupsCover(AddToGroups(groups, w), seen + [w])
  {
    var next := AddToGroups(groups, w);
    var seen' := seen + [w];
    forall j | 0 <= j < |seen'| && IsTraining(seen'[j]) ensures HasSport(next, seen'[j].sport) {
      if j < |seen| {
        assert seen'[j] == seen[j];
        var m :| 0 <= m < |groups| && groups[m].sport == seen[j].sport;
        assert next[m].sport == seen[j].sport;
      } else {
        var k := FindSport(groups, w.sport);
        assert next[k].sport == w.sport;
      }
    }
  }

  lemma AddToGroupsSizes(groups: seq<SportGroup>, seen: seq<DailyWorkout>, w: DailyWorkout)
    requires GroupSizes(groups) == TrainingCount(seen)
    ensures GroupSizes(AddToGroups(groups, w)) == TrainingCount(seen + [w])
  {
    TrainingCountSnoc(seen, w);
    if IsTraining(w) {
      var k := FindSport(groups, w.sport);
      if k < |groups| {
        GroupSizesUpdate(groups, k, SportGroup(w.sport, groups[k].workouts + [w]));
      } else {
        GroupSizesAppend(groups, SportGroup(w.sport, [w]));
      }
    }
  }

  /** The reducer keeps the accumulator's meaning. */
  lemma AddToGroupsStep(groups: seq<SportGroup>, seen: seq<DailyWorkout>, w: DailyWorkout)
    requires GroupsOf(groups, seen)
    ensures GroupsOf(AddToGroups(groups, w), seen + [w])
  {
    AddToGroupsDistinct(groups, w);
    AddToGroupsHold(groups, seen, w);
    AddToGroupsCover(groups, seen, w);
    AddToGroupsSizes(groups, seen, w);
  }

  /**
    `groupWorkoutsBySport`: one row per sport that has a training workout,
    with the number, minutes and TSS of that sport's training workouts.
    Rest days are left out, and the row counts add up to the number of
    training workouts.
  */
  method GroupWorkoutsBySport(ws: seq<DailyWorkout>) returns (rows: seq<SportSummary>)
    ensures RowsBySport(rows, ws)
    ensures RowsInFirstOrder(rows, ws)
  {
    var groups := GroupBySport(ws);
    rows := Summaries(groups);
    SummariesOfGroups(groups, ws);
    SummariesInFirstOrder(groups, ws);
  }

  /** The `reduce` of `groupWorkoutsBySport`: the groups of the workouts,
      in the order their sports first train. */
  method GroupBySport(ws: seq<DailyWorkout>) returns (groups: seq<SportGroup>)
    ensures groups == GroupsFold(ws)
    ensures GroupsOf(groups, ws) && InFirstOrder(groups, ws)
  {
    groups := [];
    var i := 0;
    while i < |ws|
      invariant 0 <= i <= |ws|
      invariant groups == GroupsFold(ws[..i])
    {
      assert ws[..i + 1][..i] == ws[..i];
      groups := AddToGroups(groups, ws[i]);
      i := i + 1;
    }
    assert ws[..|ws|] == ws;
    GroupsFoldGroups(ws);
  }

  /** The reducer applied to the workouts from the first to the last. */
  function GroupsFold(ws: seq<DailyWorkout>): seq<SportGroup> {
    if ws == [] then [] else AddToGroups(GroupsFold(ws[..|ws| - 1]), ws[|ws| - 1])
  }

  /** The fold groups the workouts by sport, in first-training order. */
  lemma {:induction false} GroupsFoldGroups(ws: seq<DailyWorkout>)
    ensures GroupsOf(GroupsFold(ws), ws) && InFirstOrder(GroupsFold(ws), ws)
  {
    if ws != [] {
      var n := |ws| - 1;
      GroupsFoldGroups(ws[..n]);
      AddToGroupsStep(GroupsFold(ws[..n]), ws[..n], ws[n]);
      AddToGroupsOrder(GroupsFold(ws[..n]), ws[..n], ws[n]);
      assert ws[..n] + [ws[n]] == ws;
    }
  }

  /** A training workout of the sport. */
  predicate Trains(w: DailyWorkout, sport: string) { IsTraining(w) && w.sport == sport }

  /** The index of the sport's first training workout; `|ws|` when it has
      none. */
  function FirstIndex(ws: seq<DailyWorkout>, sport: string): (i: nat)
    ensures i <= |ws|
    ensures i < |ws| ==> Trains(ws[i], sport)
  {
    if ws == [] then 0
    else
      var n := |ws| - 1;
      var p := FirstIndex(ws[..n], sport);
      assert p < n ==> ws[..n][p] == ws[p];
      if p < n then p else if Trains(ws[n], sport) then n else n + 1
  }

  /** No workout before the first index trains the sport. */
  lemma {:induction false} FirstIndexIsFirst(ws: seq<DailyWorkout>, sport: string, j: nat)
    requires j < FirstIndex(ws, sport)
    ensures !Trains(ws[j], sport)
  {
    var n := |ws| - 1;
    if j < n {
      FirstIndexIsFirst(ws[..n], sport, j);
      assert ws[..n][j] == ws[j];
    }
  }

  /** The groups are in the order their sports first train in `seen`. */
  ghost predicate InFirstOrder(groups: seq<SportGroup>, seen: seq<DailyWorkout>) {
    (forall m :: 0 <= m < |groups| ==> FirstIndex(seen, groups[m].sport) < |seen|)
    && (forall a, b :: 0 <= a < b < |groups| ==>
          FirstIndex(seen, groups[a].sport) < FirstIndex(seen, groups[b].sport))
  }

  /** The rows come in the order their sports first train in `ws`. */
  predicate RowsInFirstOrder(rows: seq<SportSummary>, ws: seq<DailyWorkout>) {
    forall a, b :: 0 <= a < b < |rows| ==> FirstIndex(ws, rows[a].sport) < FirstIndex(ws, rows[b].sport)
  }

  /** The rows keep the order of their groups. */
  lemma SummariesInFirstOrder(groups: seq<SportGroup>, ws: seq<DailyWorkout>)
    requires InFirstOrder(groups, ws)
    ensures RowsInFirstOrder(Summaries(groups), ws)
  {
    var rows := Summaries(groups);
    assert forall k :: 0 <= k < |rows| ==> rows[k].sport == groups[k].sport;
  }

  lemma FirstIndexSnoc(seen: seq<DailyWorkout>, w: DailyWorkout, sport: string)
    ensures FirstIndex(seen, sport) < |seen| ==> FirstIndex(seen + [w], sport) == FirstIndex(seen, sport)
    ensures FirstIndex(seen, sport) == |seen| && Trains(w, sport) ==> FirstIndex(seen + [w], sport) == |seen|
  {
    assert (seen + [w])[..|seen|] == seen;
  }

  /** A new group goes last and its sport first trains at the new workout;
      the other sports keep their first index. */
  lemma AddToGroupsOrder(groups: seq<SportGroup>, seen: seq<DailyWorkout>, w: DailyWorkout)
    requires GroupsCover(groups, seen) && InFirstOrder(groups, seen)
    ensures InFirstOrder(AddToGroups(groups, w), seen + [w])
  {
    var next := AddToGroups(groups, w);
    forall m | 0 <= m < |groups| ensures FirstIndex(seen + [w], groups[m].sport) == FirstIndex(seen, groups[m].sport) {
      FirstIndexSnoc(seen, w, groups[m].sport);
    }
    if IsTraining(w) && FindSport(groups, w.sport) == |groups| {
      NewSportFirstTrainsNow(groups, seen, w);
      assert next == groups + [SportGroup(w.sport, [w])];
    } else {
      assert |next| == |groups|;
      assert forall m :: 0 <= m < |next| ==> next[m].sport == groups[m].sport;
    }
  }

  /** A sport without a group first trains at the workout that adds it. */
  lemma NewSportFirstTrainsNow(groups: seq<SportGroup>, seen: seq<DailyWorkout>, w: DailyWorkout)
    requires GroupsCover(groups, seen) && IsTraining(w) && FindSport(groups, w.sport) == |groups|
    ensures FirstIndex(seen, w.sport) == |seen|
    ensures FirstIndex(seen + [w], w.sport) == |seen|
  {
    var i := FirstIndex(seen, w.sport);
    if i < |seen| {
      assert false;
    }
    FirstIndexSnoc(seen, w, w.sport);
  }

  /** The rows summarise the workouts by sport: one row per sport that has
      a training workout, with the number, minutes and TSS of that sport's
      training workouts, and counts that add up to all training workouts. */
  ghost predicate RowsBySport(rows: seq<SportSummary>, ws: seq<DailyWorkout>) {
    (forall a, b :: 0 <= a < b < |rows| ==> rows[a].sport != rows[b].sport)
    && (forall k :: 0 <= k < |rows| ==>
          rows[k].count >= 1 && rows[k].count == |OfSport(ws, rows[k].sport)|
          && rows[k].totalMinutes == SumMinutes(OfSport(ws, rows[k].sport))
          && rows[k].totalTss == SumTss(OfSport(ws, rows[k].sport)))
    && (forall j :: 0 <= j < |ws| && IsTraining(ws[j]) ==>
          exists k :: 0 <= k < |rows| && rows[k].sport == ws[j].sport)
    && SumCounts(rows) == TrainingCount(ws)
  }

  /** The rows of the groups of a list of workouts summarise it by sport. */
  lemma SummariesOfGroups(groups: seq<SportGroup>, ws: seq<DailyWorkout>)
    requires GroupsOf(groups, ws)
    ensures RowsBySport(Summaries(groups), ws)
  {
    var rows := Summaries(groups);
    forall j | 0 <= j < |ws| && IsTraining(ws[j])
      ensures exists k :: 0 <= k < |rows| && rows[k].sport == ws[j].sport
    {
      assert HasSport(groups, ws[j].sport);
      var k :| 0 <= k < |groups| && groups[k].sport == ws[j].sport;
      assert rows[k].sport == ws[j].sport;
    }
  }

  // ---------------------------------------------------------------------
  // Next workout (getNextWorkout)

  function WorkoutDateKey(w: DailyWorkout): Key { Key(w.date, 0) }

  /** A training workout dated today or later. */
  predicate Upcoming(w: DailyWorkout, today: int) { IsTraining(w) && w.date >= today }

  /** The filter callback of `getNextWorkout`, for a given day. */
  function UpcomingFrom(today: int): DailyWorkout -> bool {
    (w: DailyWorkout) => Upcoming(w, today)
  }

  /** The earliest upcoming workout of a week (the first of them in the
      week's order when several share that date). */
  function NextInWeek(week: WeeklyPlan, today: int): (r: Option<DailyWorkout>)
    ensures r.Some? ==> r.value in week.workouts && Upcoming(r.value, today)
    ensures r.Some? ==> forall i :: 0 <= i < |week.workouts| && Upcoming(week.workouts[i], today) ==>
                          r.value.date <= week.workouts[i].date
    ensures r.None? <==> forall i :: 0 <= i < |week.workouts| ==> !Upcoming(week.workouts[i], today)
  {
    var upcoming := SortBy(Filter(week.workouts, UpcomingFrom(today)), WorkoutDateKey);
    if |upcoming| > 0 then
      EarliestUpcomingHead(week.workouts, today);
      Some(upcoming[0])
    else
      NoUpcomingLeft(week.workouts, today);
      None
  }

  /** The head of the sorted upcoming workouts is an upcoming workout with
      the earliest date. */
  lemma EarliestUpcomingHead(ws: seq<DailyWorkout>, today: int)
    requires |SortBy(Filter(ws, UpcomingFrom(today)), WorkoutDateKey)| > 0
    ensures var h := SortBy(Filter(ws, UpcomingFrom(today)), WorkoutDateKey)[0];
      h in ws && Upcoming(h, today)
      && forall i :: 0 <= i < |ws| && Upcoming(ws[i], today) ==> h.date <= ws[i].date
  {
    var candidates := Filter(ws, UpcomingFrom(today));
    var upcoming := SortBy(candidates, WorkoutDateKey);
    assert upcoming[0] in multiset(candidates);
    forall i | 0 <= i < |ws| && Upcoming(ws[i], today)
      ensures upcoming[0].date <= ws[i].date
    {
      assert ws[i] in multiset(upcoming);
      SortedHeadIsLeast(upcoming, WorkoutDateKey, ws[i]);
    }
  }

  /** With nothing left after filtering and sorting, no workout is upcoming. */
  lemma NoUpcomingLeft(ws: seq<DailyWorkout>, today: int)
    requires |SortBy(Filter(ws, UpcomingFrom(today)), WorkoutDateKey)| == 0
    ensures forall i :: 0 <= i < |ws| ==> !Upcoming(ws[i], today)
  {
    var upcoming := SortBy(Filter(ws, UpcomingFrom(today)), WorkoutDateKey);
    assert forall i :: 0 <= i < |ws| && Upcoming(ws[i], today) ==> ws[i] in multiset(upcoming);
  }

  /** Among workouts sharing the earliest date, the one chosen is the first
      in the week's order: every upcoming workout before it is later. */
  lemma NextInWeekIsFirst(week: WeeklyPlan, today: int)
    requires NextInWeek(week, today).Some?
    ensures exists k :: 0 <= k < |week.workouts| && week.workouts[k] == NextInWeek(week, today).value &&
              forall j :: 0 <= j < k && Upcoming(week.workouts[j], today) ==> week.workouts[j].date > week.workouts[k].date
  {
    var ws := week.workouts;
    SortedFilterHeadIsFirst(ws, UpcomingFrom(today), WorkoutDateKey);
    var k :| FirstLeastAt(ws, UpcomingFrom(today), WorkoutDateKey, k) &&
             SortBy(Filter(ws, UpcomingFrom(today)), WorkoutDateKey)[0] == ws[k];
    forall j | 0 <= j < k && Upcoming(ws[j], today) ensures ws[j].date > ws[k].date {
      assert UpcomingFrom(today)(ws[j]);
      assert !KeyLe(WorkoutDateKey(ws[j]), WorkoutDateKey(ws[k]));
    }
  }

  /** There is at most one first week with a given number. */
  lemma FirstWeekAtUnique(weeks: seq<WeeklyPlan>, k1: int, k2: int, n: int)
    requires FirstWeekAt(weeks, k1, n) && FirstWeekAt(weeks, k2, n)
    ensures k1 == k2
  {
  }

  /** The next workout in the first weekly plan numbered `n`, if any. */
  function UpcomingInWeek(plan: TrainingPlan, n: int, today: int): (r: Option<DailyWorkout>)
    ensures r.Some? ==> exists k :: FirstWeekAt(plan.weeklyPlans, k, n) && r == NextInWeek(plan.weeklyPlans[k], today)
    ensures r.None? ==> forall k :: FirstWeekAt(plan.weeklyPlans, k, n) ==> NextInWeek(plan.weeklyPlans[k], today).None?
  {
    match FindWeek(plan.weeklyPlans, n)
    case Some(k) =>
      assert FirstWeekAt(plan.weeklyPlans, k, n);
      forall k' | FirstWeekAt(plan.weeklyPlans, k', n) ensures k' == k {
        FirstWeekAtUnique(plan.weeklyPlans, k, k', n);
      }
      NextInWeek(plan.weeklyPlans[k], today)
    case None => None
  }

  /** Scans week numbers from `week` to the plan's duration and answers
      the next workout of the first week that has one. */
  function NextWorkoutFrom(plan: TrainingPlan, week: int, today: int): Option<DailyWorkout>
    decreases plan.planDurationWeeks - week
  {
    if week > plan.planDurationWeeks then None
    else match UpcomingInWeek(plan, week, today)
      case Some(w) => Some(w)
      case None => NextWorkoutFrom(plan, week + 1, today)
  }

  /** No week numbered from `from` up to `to` (excluded) has an upcoming workout. */
  ghost predicate NoneUpcomingBetween(plan: TrainingPlan, from: int, to: int, today: int) {
    forall m :: from <= m < to ==> UpcomingInWeek(plan, m, today).None?
  }

  /** The scan answers the first week, from `week` on, with an upcoming
      workout, and `None` exactly when no week in range has one. */
  lemma {:induction false} NextWorkoutFromFirst(plan: TrainingPlan, week: int, today: int)
    ensures NextWorkoutFrom(plan, week, today).Some? ==>
      exists n :: week <= n <= plan.planDurationWeeks
                  && UpcomingInWeek(plan, n, today) == NextWorkoutFrom(plan, week, today)
                  && NoneUpcomingBetween(plan, week, n, today)
    ensures NextWorkoutFrom(plan, week, today).None? ==>
      NoneUpcomingBetween(plan, week, plan.planDurationWeeks + 1, today)
    decreases plan.planDurationWeeks - week
  {
    if week <= plan.planDurationWeeks {
      var here := UpcomingInWeek(plan, week, today);
      if here.Some? {
        assert NoneUpcomingBetween(plan, week, week, today);
      } else {
        NextWorkoutFromFirst(plan, week + 1, today);
        var r := NextWorkoutFrom(plan, week + 1, today);
        if r.Some? {
          var n :| week + 1 <= n <= plan.planDurationWeeks && UpcomingInWeek(plan, n, today) == r
                   && NoneUpcomingBetween(plan, week + 1, n, today);
          assert NoneUpcomingBetween(plan, week, n, today);
        }
      }
    }
  }

  /** `getNextWorkout`: `None` for a past plan or without a current week;
      otherwise the scan from the current week up to the plan's duration. */
  method GetNextWorkout(p: PlanWithCountdown, today: int) returns (r: Option<DailyWorkout>)
    ensures p.isPast || !Truthy(p.currentWeek) ==> r.None?
    ensures !p.isPast && Truthy(p.currentWeek) ==> r == NextWorkoutFrom(p.plan, p.currentWeek.value, today)
  {
    if p.isPast || !Truthy(p.currentWeek) {
      return None;
    }
    var weekNum := p.currentWeek.value;
    while weekNum <= p.plan.planDurationWeeks
      invariant NextWorkoutFrom(p.plan, weekNum, today) == NextWorkoutFrom(p.plan, p.currentWeek.value, today)
      decreases p.plan.planDurationWeeks - weekNum
    {
      var next := UpcomingInWeek(p.plan, weekNum, today);
      if next.Some? {
        return next;
      }
      weekNum := weekNum + 1;
    }
    return None;
  }

  // ---------------------------------------------------------------------
  // Form validation (validateTrainingPlanForm)

  const RaceMissing := "Please select a race"
  const DaysOutOfRange := "Training days per week must be between 1 and 7"
  const HoursOutOfRange := "Max hours per week must be between 0.1 and 30"
  const ExperienceMissing := "Please select your experience level"
  const TooManyPreferredDays := "Cannot have more preferred training days than total training days per week"
  const DisruptionIncomplete := "All disruption fields are required"
  const DisruptionOutOfOrder := "Disruption end date must be after start date"

  /** A disruption that is complete and ends after it starts. */
  predicate DisruptionOk(d: Disruption) {
    DisruptionComplete(d) && d.endDate.value > d.startDate.value
  }

  /** `ds[k]` is the first disruption that is not ok. */
  predicate FirstFailureAt(ds: seq<Disruption>, k: int) {
    0 <= k < |ds| && !DisruptionOk(ds[k]) && forall i :: 0 <= i < k ==> DisruptionOk(ds[i])
  }

  /** The message of a disruption that is not ok: the completeness check
      comes first. */
  function FailureMessage(d: Disruption): string {
    if !DisruptionComplete(d) then DisruptionIncomplete else DisruptionOutOfOrder
  }

  /** The message for the first disruption that is incomplete or does not
      end after it starts; the loop stops there. */
  function DisruptionError(ds: seq<Disruption>): (e: Option<string>)
    ensures e.None? <==> forall i :: 0 <= i < |ds| ==> DisruptionOk(ds[i])
    ensures e.Some? ==> e.value == DisruptionIncomplete || e.value == DisruptionOutOfOrder
    ensures e.Some? ==>
      exists k :: FirstFailureAt(ds, k) && e.value == FailureMessage(ds[k])
  {
    if ds == [] then None
    else if !DisruptionOk(ds[0]) then
      assert FirstFailureAt(ds, 0);
      Some(FailureMessage(ds[0]))
    else
      var e := DisruptionError(ds[1..]);
      assert forall i :: 1 <= i < |ds| ==> ds[i] == ds[1..][i - 1];
      assert e.Some? ==> exists k :: FirstFailureAt(ds, k) && e.value == FailureMessage(ds[k]) by {
        if e.Some? {
          var k :| FirstFailureAt(ds[1..], k) && e.value == FailureMessage(ds[1..][k]);
          FirstFailureShift(ds, k);
        }
      }
      e
  }

  /** From index `i` on, the first disruption decides or passes to the rest. */
  lemma DisruptionErrorAt(ds: seq<Disruption>, i: int)
    requires 0 <= i < |ds|
    ensures DisruptionError(ds[i..]) ==
      if DisruptionOk(ds[i]) then DisruptionError(ds[i + 1..]) else Some(FailureMessage(ds[i]))
  {
    assert ds[i..][0] == ds[i] && ds[i..][1..] == ds[i + 1..];
  }

  /** A first failure after an ok disruption is one place further on. */
  lemma FirstFailureShift(ds: seq<Disruption>, k: int)
    requires ds != [] && DisruptionOk(ds[0]) && FirstFailureAt(ds[1..], k)
    ensures FirstFailureAt(ds, k + 1) && ds[k + 1] == ds[1..][k]
  {
    forall i | 0 < i < k + 1 ensures DisruptionOk(ds[i]) {
      assert ds[i] == ds[1..][i - 1];
    }
  }

  /** `!data.days_per_week || data.days_per_week < 1 || data.days_per_week > 7` fails. */
  predicate DaysOk(days: Option<int>) { days.Some? && 1 <= days.value <= 7 }

  /** `!data.max_hours_per_week || ... < 0.1 || ... > 30` fails. */
  predicate HoursOk(hours: Option<real>) { hours.Some? && 0.1 <= hours.value <= 30.0 }

  /** More preferred days than days per week; a comparison with a missing
      count is false. */
  predicate TooManyDays(f: PartialForm) {
    f.preferredTrainingDays.Some? && f.daysPerWeek.Some?
    && |f.preferredTrainingDays.value| > f.daysPerWeek.value
  }

  /** The messages of the field checks, in order. */
  function FieldErrors(f: PartialForm): seq<string> {
    (if !Truthy(f.raceId) then [RaceMissing] else [])
    + (if !DaysOk(f.daysPerWeek) then [DaysOutOfRange] else [])
    + (if !HoursOk(f.maxHoursPerWeek) then [HoursOutOfRange] else [])
    + (if f.yearsExperience.None? then [ExperienceMissing] else [])
    + (if TooManyDays(f) then [TooManyPreferredDays] else [])
  }

  function DisruptionErrors(f: PartialForm): seq<string> {
    if f.upcomingDisruptions.Some? && DisruptionError(f.upcomingDisruptions.value).Some?
    then [DisruptionError(f.upcomingDisruptions.value).value] else []
  }

  function ValidationErrors(f: PartialForm): seq<string> {
    FieldErrors(f) + DisruptionErrors(f)
  }

  /** The field checks of `validateTrainingPlanForm`, in their order. A
      zero count or zero hours is falsy and fails like a missing one. */
  method CheckFields(data: PartialForm) returns (errors: seq<string>)
    ensures errors == FieldErrors(data)
  {
    errors := [];
    if !Truthy(data.raceId) {
      errors := errors + [RaceMissing];
    }
    ghost var e1 := errors;
    assert e1 == (if !Truthy(data.raceId) then [RaceMissing] else []);
    if data.daysPerWeek.None? || data.daysPerWeek.value == 0 || data.daysPerWeek.value < 1 || data.daysPerWeek.value > 7 {
      errors := errors + [DaysOutOfRange];
    }
    assert errors == e1 + (if !DaysOk(data.daysPerWeek) then [DaysOutOfRange] else []);
    ghost var e2 := errors;
    if data.maxHoursPerWeek.None? || data.maxHoursPerWeek.value == 0.0
       || data.maxHoursPerWeek.value < 0.1 || data.maxHoursPerWeek.value > 30.0 {
      errors := errors + [HoursOutOfRange];
    }
    assert errors == e2 + (if !HoursOk(data.maxHoursPerWeek) then [HoursOutOfRange] else []);
    if data.yearsExperience.None? {
      errors := errors + [ExperienceMissing];
    }
    ghost var e4 := errors;
    assert e4 == (if !Truthy(data.raceId) then [RaceMissing] else [])
      + (if !DaysOk(data.daysPerWeek) then [DaysOutOfRange] else [])
      + (if !HoursOk(data.maxHoursPerWeek) then [HoursOutOfRange] else [])
      + (if data.yearsExperience.None? then [ExperienceMissing] else []);
    if data.preferredTrainingDays.Some? && data.daysPerWeek.Some?
       && |data.preferredTrainingDays.value| > data.daysPerWeek.value {
      errors := errors + [TooManyPreferredDays];
    }
    assert errors == e4 + (if TooManyDays(data) then [TooManyPreferredDays] else []);
  }

  /** The disruption loop of `validateTrainingPlanForm`: it stops at the
      first disruption that is incomplete or does not end after it starts. */
  method CheckDisruptions(ds: seq<Disruption>) returns (e: Option<string>)
    ensures e == DisruptionError(ds)
  {
    var i := 0;
    while i < |ds|
      invariant 0 <= i <= |ds|
      invariant DisruptionError(ds) == DisruptionError(ds[i..])
    {
      var d := ds[i];
      DisruptionErrorAt(ds, i);
      if d.startDate.None? || d.endDate.None? || d.description == "" {
        return Some(DisruptionIncomplete);
      }
      if d.endDate.value <= d.startDate.value {
        return Some(DisruptionOutOfOrder);
      }
      i := i + 1;
    }
    return None;
  }

  /** `validateTrainingPlanForm`: the field checks, then the first
      disruption message, if any. */
  method ValidateTrainingPlanForm(data: PartialForm) returns (errors: seq<string>)
    ensures errors == ValidationErrors(data)
  {
    errors := CheckFields(data);
    if data.upcomingDisruptions.Some? {
      var e := CheckDisruptions(data.upcomingDisruptions.value);
      if e.Some? {
        errors := errors + [e.value];
      }
    }
  }

  /** The form passes exactly when every check holds. */
  ghost predicate FormValid(f: PartialForm) {
    Truthy(f.raceId)
    && DaysOk(f.daysPerWeek)
    && HoursOk(f.maxHoursPerWeek)
    && f.yearsExperience.Some?
    && (f.preferredTrainingDays.Some? ==> |f.preferredTrainingDays.value| <= f.daysPerWeek.value)
    && (f.upcomingDisruptions.Some? ==>
          forall i :: 0 <= i < |f.upcomingDisruptions.value| ==>
            DisruptionComplete(f.upcomingDisruptions.value[i])
            && f.upcomingDisruptions.value[i].endDate.value > f.upcomingDisruptions.value[i].startDate.value)
  }

  lemma ValidationEmptyIff(f: PartialForm)
    ensures ValidationErrors(f) == [] <==> FormValid(f)
  {
  }

  /** The position of a message in the check order (both disruption
      messages come from the one loop). */
  function CheckRank(msg: string): int {
    if msg == RaceMissing then 0
    else if msg == DaysOutOfRange then 1
    else if msg == HoursOutOfRange then 2
    else if msg == ExperienceMissing then 3
    else if msg == TooManyPreferredDays then 4
    else if msg == DisruptionIncomplete || msg == DisruptionOutOfOrder then 5
    else 6
  }

  /** Messages come in the check order, each check at most once; in
      particular at most one disruption message is reported. */
  lemma ErrorsInCheckOrder(f: PartialForm)
    ensures forall i, j :: 0 <= i < j < |ValidationErrors(f)| ==>
      CheckRank(ValidationErrors(f)[i]) < CheckRank(ValidationErrors(f)[j])
    ensures |ValidationErrors(f)| <= 6
  {
    FieldErrorsRanked(f);
    MessageRanks();
    var e := FieldErrors(f);
    var d := DisruptionErrors(f);
    var m := if d != [] then d[0] else DisruptionIncomplete;
    assert m == DisruptionIncomplete || m == DisruptionOutOfOrder;
    assert d == (if d != [] then [m] else []);
    AppendRanked(e, d != [], m, 5);
    var v := ValidationErrors(f);
    assert v == e + d;
    assert RankedBelow(v, 6);
  }

  /** The field checks alone: ranks 0 to 4, increasing. */
  lemma FieldErrorsRanked(f: PartialForm)
    ensures RankedBelow(FieldErrors(f), 5)
  {
    MessageRanks();
    var e1 := (if !Truthy(f.raceId) then [RaceMissing] else []);
    AppendRanked([], !Truthy(f.raceId), RaceMissing, 0);
    var e2 := e1 + (if !DaysOk(f.daysPerWeek) then [DaysOutOfRange] else []);
    AppendRanked(e1, !DaysOk(f.daysPerWeek), DaysOutOfRange, 1);
    var e3 := e2 + (if !HoursOk(f.maxHoursPerWeek) then [HoursOutOfRange] else []);
    AppendRanked(e2, !HoursOk(f.maxHoursPerWeek), HoursOutOfRange, 2);
    var e4 := e3 + (if f.yearsExperience.None? then [ExperienceMissing] else []);
    AppendRanked(e3, f.yearsExperience.None?, ExperienceMissing, 3);
    AppendRanked(e4, TooManyDays(f), TooManyPreferredDays, 4);
  }

  lemma MessageRanks()
    ensures CheckRank(RaceMissing) == 0 && CheckRank(DaysOutOfRange) == 1
    ensures CheckRank(HoursOutOfRange) == 2 && CheckRank(ExperienceMissing) == 3
    ensures CheckRank(TooManyPreferredDays) == 4
    ensures CheckRank(DisruptionIncomplete) == 5 && CheckRank(DisruptionOutOfOrder) == 5
  {
  }

  /** Ranks strictly increase along e, stay below r, and e has at most r
      messages. */
  predicate RankedBelow(e: seq<string>, r: int) {
    (forall i, j :: 0 <= i < j < |e| ==> CheckRank(e[i]) < CheckRank(e[j]))
    && (forall k :: 0 <= k < |e| ==> CheckRank(e[k]) < r)
    && |e| <= r
  }

  /** Appending at most one message of rank r keeps the ranks increasing. */
  lemma AppendRanked(e: seq<string>, add: bool, m: string, r: int)
    requires r >= 0 && RankedBelow(e, r) && CheckRank(m) == r
    ensures RankedBelow(e + (if add then [m] else []), r + 1)
  {
  }
}
