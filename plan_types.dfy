/**
  The training-plan vocabulary: enumerations, the request sent to the
  generator, the wizard's form data (complete and partial), the plan
  records the helpers read, and the constant lookup tables.
  Dates are day numbers (days since a fixed epoch).
*/
module PlanTypes {
  import opened Wrappers

  datatype ExperienceLevel = Beginner | Intermediate | Experienced
  datatype TrainingTime = Morning | Afternoon | Evening
  datatype WorkoutPhase = Base | Build | Peak | Taper | Recovery | Transition
  datatype RacePriority = PriorityA | PriorityB | PriorityC
  datatype WorkoutType =
    | Endurance | Tempo | Intervals | RecoveryWorkout | Strength
    | RacePace | LongRun | Brick | Technique | Rest
  datatype EquipmentType =
    | BikeTrainer | Treadmill | HeartRateMonitor | PowerMeter
    | GpsWatch | PoolAccess | GymAccess | StrengthEquipment

  /** A disruption; an empty date field is `None`. */
  datatype Disruption = Disruption(startDate: Option<int>, endDate: Option<int>, description: string)

  /** What is sent to the generator. The lists and toggles are optional. */
  datatype PlanRequest = PlanRequest(
    userId: string,
    raceId: int,
    daysPerWeek: int,
    maxHoursPerWeek: real,
    yearsExperience: ExperienceLevel,
    preferredTrainingDays: Option<seq<string>>,
    preferredRestDays: Option<seq<string>>,
    preferredTrainingTime: Option<TrainingTime>,
    upcomingDisruptions: Option<seq<Disruption>>,
    injuryLimitations: Option<seq<string>>,
    availableEquipment: Option<seq<EquipmentType>>,
    safeOutdoorRoutes: Option<bool>,
    includeStrengthTraining: Option<bool>,
    includeCrossTraining: Option<bool>)

  /** The complete form: every list and toggle is mandatory. */
  datatype PlanFormData = PlanFormData(
    raceId: int,
    daysPerWeek: int,
    maxHoursPerWeek: real,
    yearsExperience: ExperienceLevel,
    preferredTrainingDays: seq<string>,
    preferredRestDays: seq<string>,
    preferredTrainingTime: Option<TrainingTime>,
    upcomingDisruptions: seq<Disruption>,
    injuryLimitations: seq<string>,
    availableEquipment: seq<EquipmentType>,
    safeOutdoorRoutes: bool,
    includeStrengthTraining: bool,
    includeCrossTraining: bool)

  /**
    A partial form (`Partial<TrainingPlanFormData>`): `None` is an absent
    key. The training time is the one key whose value may itself be
    `undefined`, so a present key carries an `Option`.
  */
  datatype PartialForm = PartialForm(
    raceId: Option<int>,
    daysPerWeek: Option<int>,
    maxHoursPerWeek: Option<real>,
    yearsExperience: Option<ExperienceLevel>,
    preferredTrainingDays: Option<seq<string>>,
    preferredRestDays: Option<seq<string>>,
    preferredTrainingTime: Option<Option<TrainingTime>>,
    upcomingDisruptions: Option<seq<Disruption>>,
    injuryLimitations: Option<seq<string>>,
    availableEquipment: Option<seq<EquipmentType>>,
    safeOutdoorRoutes: Option<bool>,
    includeStrengthTraining: Option<bool>,
    includeCrossTraining: Option<bool>)

  /** The partial form with no keys at all. */
  const NoKeys := PartialForm(None, None, None, None, None, None, None, None, None, None, None, None, None)

  /** JavaScript truthiness of an optional number: present and not 0. */
  predicate Truthy(n: Option<int>) { n.Some? && n.value != 0 }
  predicate RealTruthy(n: Option<real>) { n.Some? && n.value != 0.0 }

  /** A disruption whose two dates and description are all set. */
  predicate DisruptionComplete(d: Disruption) {
    d.startDate.Some? && d.endDate.Some? && d.description != ""
  }

  /** The value of the training-time key, `undefined` when absent. */
  function TrainingTimeOf(f: PartialForm): Option<TrainingTime> {
    f.preferredTrainingTime.GetOr(None)
  }

  /** The spread rule for one key: the update's value when the key is
      present in the update, the base's value otherwise. */
  predicate KeyFrom<T(==)>(base: Option<T>, update: Option<T>, v: Option<T>) {
    (update.Some? ==> v == update) && (update.None? ==> v == base)
  }

  /**
    `{...base, ...update}` on partial forms: every key present in `update`
    takes its value from there, every other key keeps the value in `base`.
  */
  function Spread(base: PartialForm, update: PartialForm): (r: PartialForm)
    ensures KeyFrom(base.raceId, update.raceId, r.raceId)
    ensures KeyFrom(base.daysPerWeek, update.daysPerWeek, r.daysPerWeek)
    ensures KeyFrom(base.maxHoursPerWeek, update.maxHoursPerWeek, r.maxHoursPerWeek)
    ensures KeyFrom(base.yearsExperience, update.yearsExperience, r.yearsExperience)
    ensures KeyFrom(base.preferredTrainingDays, update.preferredTrainingDays, r.preferredTrainingDays)
    ensures KeyFrom(base.preferredRestDays, update.preferredRestDays, r.preferredRestDays)
    ensures KeyFrom(base.preferredTrainingTime, update.preferredTrainingTime, r.preferredTrainingTime)
    ensures KeyFrom(base.upcomingDisruptions, update.upcomingDisruptions, r.upcomingDisruptions)
    ensures KeyFrom(base.injuryLimitations, update.injuryLimitations, r.injuryLimitations)
    ensures KeyFrom(base.availableEquipment, update.availableEquipment, r.availableEquipment)
    ensures KeyFrom(base.safeOutdoorRoutes, update.safeOutdoorRoutes, r.safeOutdoorRoutes)
    ensures KeyFrom(base.includeStrengthTraining, update.includeStrengthTraining, r.includeStrengthTraining)
    ensures KeyFrom(base.includeCrossTraining, update.includeCrossTraining, r.includeCrossTraining)
    ensures update == NoKeys ==> r == base
    ensures base == NoKeys ==> r == update
  {
    KeyByKeyTakesEachKey(base, update);
    KeyByKeyOfNoKeys(base, update);
    KeyByKey(base, update)
  }

  /** The spread assembled one key at a time. */
  function KeyByKey(base: PartialForm, update: PartialForm): PartialForm {
    PartialForm(
      Over(base.raceId, update.raceId),
      Over(base.daysPerWeek, update.daysPerWeek),
      Over(base.maxHoursPerWeek, update.maxHoursPerWeek),
      Over(base.yearsExperience, update.yearsExperience),
      Over(base.preferredTrainingDays, update.preferredTrainingDays),
      Over(base.preferredRestDays, update.preferredRestDays),
      Over(base.preferredTrainingTime, update.preferredTrainingTime),
      Over(base.upcomingDisruptions, update.upcomingDisruptions),
      Over(base.injuryLimitations, update.injuryLimitations),
      Over(base.availableEquipment, update.availableEquipment),
      Over(base.safeOutdoorRoutes, update.safeOutdoorRoutes),
      Over(base.includeStrengthTraining, update.includeStrengthTraining),
      Over(base.includeCrossTraining, update.includeCrossTraining))
  }

  /** Each key of the assembled form follows the spread rule. */
  lemma KeyByKeyTakesEachKey(base: PartialForm, update: PartialForm)
    ensures KeyFrom(base.raceId, update.raceId, KeyByKey(base, update).raceId)
    ensures KeyFrom(base.daysPerWeek, update.daysPerWeek, KeyByKey(base, update).daysPerWeek)
    ensures KeyFrom(base.maxHoursPerWeek, update.maxHoursPerWeek, KeyByKey(base, update).maxHoursPerWeek)
    ensures KeyFrom(base.yearsExperience, update.yearsExperience, KeyByKey(base, update).yearsExperience)
    ensures KeyFrom(base.preferredTrainingDays, update.preferredTrainingDays, KeyByKey(base, update).preferredTrainingDays)
    ensures KeyFrom(base.preferredRestDays, update.preferredRestDays, KeyByKey(base, update).preferredRestDays)
    ensures KeyFrom(base.preferredTrainingTime, update.preferredTrainingTime, KeyByKey(base, update).preferredTrainingTime)
    ensures KeyFrom(base.upcomingDisruptions, update.upcomingDisruptions, KeyByKey(base, update).upcomingDisruptions)
    ensures KeyFrom(base.injuryLimitations, update.injuryLimitations, KeyByKey(base, update).injuryLimitations)
    ensures KeyFrom(base.availableEquipment, update.availableEquipment, KeyByKey(base, update).availableEquipment)
    ensures KeyFrom(base.safeOutdoorRoutes, update.safeOutdoorRoutes, KeyByKey(base, update).safeOutdoorRoutes)
    ensures KeyFrom(base.includeStrengthTraining, update.includeStrengthTraining, KeyByKey(base, update).includeStrengthTraining)
    ensures KeyFrom(base.includeCrossTraining, update.includeCrossTraining, KeyByKey(base, update).includeCrossTraining)
  {
  }

  /** Spreading nothing, or spreading onto nothing, copies the other side. */
  lemma KeyByKeyOfNoKeys(base: PartialForm, update: PartialForm)
    ensures update == NoKeys ==> KeyByKey(base, update) == base
    ensures base == NoKeys ==> KeyByKey(base, update) == update
  {
  }

  /** One key of a spread: present in the update wins. */
  function Over<T>(base: Option<T>, update: Option<T>): (r: Option<T>)
    ensures update.Some? ==> r == update
    ensures update.None? ==> r == base
    ensures base.None? ==> r == update
  {
    if update.Some? then update else base
  }

  /** Spreading the same step data twice is spreading it once. */
  lemma SpreadIdempotent(base: PartialForm, update: PartialForm)
    ensures Spread(Spread(base, update), update) == Spread(base, update)
  {
  }

  /** Later steps win: spreading `a` then `b` is spreading `{...a, ...b}`. */
  lemma SpreadAssociative(base: PartialForm, a: PartialForm, b: PartialForm)
    ensures Spread(Spread(base, a), b) == Spread(base, Spread(a, b))
  {
  }

  datatype DailyWorkout = DailyWorkout(
    date: int,
    dayOfWeek: string,
    workoutType: WorkoutType,
    sport: string,
    durationMinutes: int,
    targetTss: Option<real>,
    targetDistanceKm: Option<real>)

  datatype WeeklyPlan = WeeklyPlan(
    weekNumber: int,
    phase: WorkoutPhase,
    volumeHours: real,
    workouts: seq<DailyWorkout>)

  datatype TrainingPlan = TrainingPlan(
    planId: string,
    raceId: int,
    raceDate: int,
    planStartDate: int,
    planDurationWeeks: int,
    weeklyPlans: seq<WeeklyPlan>)

  /** A plan with its countdown fields (`TrainingPlanWithCountdown`). */
  datatype PlanWithCountdown = PlanWithCountdown(
    plan: TrainingPlan,
    daysUntilRace: int,
    isPast: bool,
    currentWeek: Option<int>)

  // ---------------------------------------------------------------------
  // Constant tables

  const AllExperienceLevels: set<ExperienceLevel> := {Beginner, Intermediate, Experienced}

  /** The three experience levels are all the levels there are. */
  lemma ExperienceLevelsAreThree()
    ensures |AllExperienceLevels| == 3
    ensures forall e: ExperienceLevel :: e in AllExperienceLevels
  {
    forall e: ExperienceLevel ensures e in AllExperienceLevels {
      match e
      case Beginner =>
      case Intermediate =>
      case Experienced =>
    }
  }

  /** Every equipment type, in declaration order. */
  const AllEquipment: seq<EquipmentType> :=
    [BikeTrainer, Treadmill, HeartRateMonitor, PowerMeter, GpsWatch, PoolAccess, GymAccess, StrengthEquipment]

  lemma AllEquipmentIsEnumeration()
    ensures |AllEquipment| == 8
    ensures forall i, j :: 0 <= i < j < |AllEquipment| ==> AllEquipment[i] != AllEquipment[j]
    ensures forall e: EquipmentType :: e in AllEquipment
  {
    forall e: EquipmentType ensures e in AllEquipment {
      match e
      case BikeTrainer => assert AllEquipment[0] == e;
      case Treadmill => assert AllEquipment[1] == e;
      case HeartRateMonitor => assert AllEquipment[2] == e;
      case PowerMeter => assert AllEquipment[3] == e;
      case GpsWatch => assert AllEquipment[4] == e;
      case PoolAccess => assert AllEquipment[5] == e;
      case GymAccess => assert AllEquipment[6] == e;
      case StrengthEquipment => assert AllEquipment[7] == e;
    }
  }

  /** `EQUIPMENT_OPTIONS`: display label of each equipment type. */
  function EquipmentOptions(): map<EquipmentType, string> {
    map[BikeTrainer := "Bike Trainer", Treadmill := "Treadmill",
        HeartRateMonitor := "Heart Rate Monitor", PowerMeter := "Power Meter",
        GpsWatch := "GPS Watch", PoolAccess := "Pool Access", GymAccess := "Gym Access",
        StrengthEquipment := "Strength Equipment"]
  }

  /** Every equipment type has a non-empty label. */
  lemma EquipmentOptionsTotal()
    ensures forall e: EquipmentType :: e in EquipmentOptions() && EquipmentOptions()[e] != ""
  {
    forall e: EquipmentType ensures e in EquipmentOptions() && EquipmentOptions()[e] != "" {
      match e
      case BikeTrainer => case Treadmill => case HeartRateMonitor => case PowerMeter =>
      case GpsWatch => case PoolAccess => case GymAccess => case StrengthEquipment =>
    }
  }

  /** `DAYS_OF_WEEK`: Monday to Sunday. */
  const DaysOfWeek: seq<string> :=
    ["Monday", "Tuesday", "Wednesday", "Thursday", "Friday", "Saturday", "Sunday"]

  lemma DaysOfWeekDistinct()
    ensures |DaysOfWeek| == 7 && DaysOfWeek[0] == "Monday" && DaysOfWeek[6] == "Sunday"
    ensures forall i, j :: 0 <= i < j < 7 ==> DaysOfWeek[i] != DaysOfWeek[j]
  {
  }

  /** `WORKOUT_TYPE_ICONS`: every workout type maps to the empty icon. */
  function WorkoutTypeIcons(): map<WorkoutType, string> {
    map[Endurance := "", Tempo := "", Intervals := "", RecoveryWorkout := "", Strength := "",
        RacePace := "", LongRun := "", Brick := "", Technique := "", Rest := ""]
  }

  lemma WorkoutTypeIconsTotal()
    ensures forall w: WorkoutType :: w in WorkoutTypeIcons() && WorkoutTypeIcons()[w] == ""
  {
    forall w: WorkoutType ensures w in WorkoutTypeIcons() && WorkoutTypeIcons()[w] == "" {
      match w
      case Endurance => case Tempo => case Intervals => case RecoveryWorkout => case Strength =>
      case RacePace => case LongRun => case Brick => case Technique => case Rest =>
    }
  }

  /** `PHASE_COLORS`: the colour of each phase. */
  function PhaseColors(): map<WorkoutPhase, string> {
    map[Base := "#10B981", Build := "#F59E0B", Peak := "#EF4444",
        Taper := "#8B5CF6", Recovery := "#06B6D4", Transition := "#6B7280"]
  }

  /** Every phase has a `#RRGGBB` colour. */
  lemma PhaseColorsTotal()
    ensures forall p: WorkoutPhase :: p in PhaseColors() && |PhaseColors()[p]| == 7 && PhaseColors()[p][0] == '#'
  {
    forall p: WorkoutPhase ensures p in PhaseColors() && |PhaseColors()[p]| == 7 && PhaseColors()[p][0] == '#' {
      match p
      case Base => case Build => case Peak => case Taper => case Recovery => case Transition =>
    }
  }

  /** The wire name of a phase (its `WorkoutPhase` string). */
  function PhaseName(p: WorkoutPhase): string {
    match p
    case Base => "base"
    case Build => "build"
    case Peak => "peak"
    case Taper => "taper"
    case Recovery => "recovery"
    case Transition => "transition"
  }

  /** Phase names are distinct, so the colour table keyed by name is well defined. */
  lemma PhaseNameInjective(p: WorkoutPhase, q: WorkoutPhase)
    requires PhaseName(p) == PhaseName(q)
    ensures p == q
  {
  }
}
