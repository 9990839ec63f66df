/**
  The training-plan wizard: four steps (race selection, constraints,
  equipment, generating), a form accumulated by spreading each step's
  data over it, validation before submission, one generation job per
  submission, and a status poll that re-arms a two-second timer up to 60
  times.

  Each event the wizard reacts to is a transition function on a
  `WizardState` value; the `Wizard` class keeps the same state in fields
  and each of its methods is proved to perform its transition. The
  service calls, the parent's `onSuccess`/`onClose` callbacks and the
  timers are explicit: calls are recorded in `calls`, callbacks are
  counted, and a pending timer is a handle in `timer`.
*/
module TrainingPlanForm {
  import opened Wrappers
  import opened Text
  import opened PlanTypes
  import opened PlanUtils

  datatype FormStep = RaceSelectionStep | ConstraintsStep | EquipmentStep | GeneratingStep

  /** A job status as the status endpoint reports it. */
  datatype JobStatus = Pending | Processing | Completed | Failed | Cancelled | OtherStatus(name: string)

  /** The part of a status answer the wizard reads. */
  datatype JobSnapshot = JobSnapshot(status: JobStatus, resultPlanId: Option<string>, errorMessage: Option<string>)

  /** Calls the wizard makes to the plan service. */
  datatype ServiceCall = Generate(request: PlanRequest) | GetStatus(jobId: string) | CancelJob(jobId: string)

  const MaxPolls: nat := 60
  const PollIntervalMs: nat := 2000

  const GenerationFailed := "Training plan generation failed"
  const GenerationCancelled := "Training plan generation was cancelled"
  const GenerationTimedOut := "Training plan generation timed out. Please try again."
  const StatusCheckFailed := "Failed to check job status. Please try again."

  // ---------------------------------------------------------------------
  // The form and the request built from it

  /** The form the wizard starts with: every key but the race and the
      training time has its default. */
  const InitialFormData: PartialForm := NoKeys.(
    daysPerWeek := Some(4), maxHoursPerWeek := Some(6.0), yearsExperience := Some(Intermediate),
    preferredTrainingDays := Some([]), preferredRestDays := Some(["Sunday"]),
    upcomingDisruptions := Some([]), injuryLimitations := Some([]), availableEquipment := Some([]),
    safeOutdoorRoutes := Some(true), includeStrengthTraining := Some(true), includeCrossTraining := Some(false))

  /** The keys the initial form has. */
  predicate HasDefaults(f: PartialForm) {
    f.daysPerWeek.Some? && f.maxHoursPerWeek.Some? && f.yearsExperience.Some?
    && f.preferredTrainingDays.Some? && f.preferredRestDays.Some?
    && f.upcomingDisruptions.Some? && f.injuryLimitations.Some? && f.availableEquipment.Some?
    && f.safeOutdoorRoutes.Some? && f.includeStrengthTraining.Some? && f.includeCrossTraining.Some?
  }

  /** A spread never removes a key, so the accumulated form keeps them. */
  lemma SpreadKeepsDefaults(base: PartialForm, update: PartialForm)
    requires HasDefaults(base)
    ensures HasDefaults(Spread(base, update))
  {
  }

  /** `list.length > 0 ? list : undefined`. */
  function OrUndefined<T>(s: seq<T>): (r: Option<seq<T>>)
    ensures r.None? <==> s == []
    ensures r.Some? ==> r.value == s
  {
    if |s| > 0 then Some(s) else None
  }

  /** The request `generatePlan` sends: the form's values, with every
      empty list left out. */
  function BuildRequest(userId: string, f: PartialForm): (r: PlanRequest)
    requires HasDefaults(f) && f.raceId.Some?
    ensures r.userId == userId && r.raceId == f.raceId.value
    ensures r.preferredTrainingTime == TrainingTimeOf(f)
    ensures r.preferredTrainingDays.None? <==> f.preferredTrainingDays.value == []
    ensures r.preferredRestDays.None? <==> f.preferredRestDays.value == []
    ensures r.upcomingDisruptions.None? <==> f.upcomingDisruptions.value == []
    ensures r.injuryLimitations.None? <==> f.injuryLimitations.value == []
    ensures r.availableEquipment.None? <==> f.availableEquipment.value == []
  {
    PlanRequest(userId, f.raceId.value, f.daysPerWeek.value, f.maxHoursPerWeek.value,
      f.yearsExperience.value,
      OrUndefined(f.preferredTrainingDays.value), OrUndefined(f.preferredRestDays.value),
      TrainingTimeOf(f),
      OrUndefined(f.upcomingDisruptions.value), OrUndefined(f.injuryLimitations.value),
      OrUndefined(f.availableEquipment.value),
      f.safeOutdoorRoutes, f.includeStrengthTraining, f.includeCrossTraining)
  }

  /** The complete form data a partial form with every key stands for. */
  function CompleteForm(f: PartialForm): PlanFormData
    requires HasDefaults(f) && f.raceId.Some?
  {
    PlanFormData(f.raceId.value, f.daysPerWeek.value, f.maxHoursPerWeek.value, f.yearsExperience.value,
      f.preferredTrainingDays.value, f.preferredRestDays.value, TrainingTimeOf(f),
      f.upcomingDisruptions.value, f.injuryLimitations.value, f.availableEquipment.value,
      f.safeOutdoorRoutes.value, f.includeStrengthTraining.value, f.includeCrossTraining.value)
  }

  /** How the service reads a request back: an omitted list is empty. */
  function FormOfRequest(r: PlanRequest): PlanFormData {
    PlanFormData(r.raceId, r.daysPerWeek, r.maxHoursPerWeek, r.yearsExperience,
      r.preferredTrainingDays.GetOr([]), r.preferredRestDays.GetOr([]), r.preferredTrainingTime,
      r.upcomingDisruptions.GetOr([]), r.injuryLimitations.GetOr([]), r.availableEquipment.GetOr([]),
      r.safeOutdoorRoutes.GetOr(false), r.includeStrengthTraining.GetOr(false), r.includeCrossTraining.GetOr(false))
  }

  /** Leaving out the empty lists loses nothing: the request reads back
      as exactly the submitted form. */
  lemma RequestLosesNothing(userId: string, f: PartialForm)
    requires HasDefaults(f) && f.raceId.Some?
    ensures FormOfRequest(BuildRequest(userId, f)) == CompleteForm(f)
  {
  }

  // ---------------------------------------------------------------------
  // Wizard state and transitions

  /**
    The wizard's state. `mounted` is false once the component has gone:
    React then drops state updates, but closures that are still running
    go on. `pollingJob`, `polls` and `fetches` belong to the running poll
    closure (its job, its re-arm counter, and the status fetches it has
    made); `inFlight` is an unanswered status fetch, `timer` the handle of
    the pending poll timer, `pollTimeoutId` the handle stored in state,
    `submitting` an unanswered generation request. `successCount` and
    `closeCount` count the calls of the parent's callbacks.
  */
  datatype WizardState = WizardState(
    userId: Option<string>,
    mounted: bool,
    currentStep: FormStep,
    formData: PartialForm,
    errors: seq<string>,
    jobId: Option<string>,
    jobStatus: Option<JobStatus>,
    pollTimeoutId: Option<nat>,
    submitting: bool,
    pollingJob: string,
    polls: nat,
    fetches: nat,
    inFlight: bool,
    timer: Option<nat>,
    nextHandle: nat,
    calls: seq<ServiceCall>,
    successCount: nat,
    closeCount: nat)

  function Initial(userId: Option<string>): WizardState {
    WizardState(userId, true, RaceSelectionStep, InitialFormData, [], None, None, None,
      false, "", 0, 0, false, None, 0, [], 0, 0)
  }

  predicate UserKnown(s: WizardState) { StringTruthy(s.userId) }

  /** No status fetch is outstanding and no poll timer is pending. */
  predicate PollingIdle(s: WizardState) { !s.inFlight && s.timer.None? }

  /** The invariant of every reachable state. */
  predicate Inv(s: WizardState) {
    HasDefaults(s.formData)
    && s.polls <= MaxPolls
    && s.fetches <= s.polls + 1
    && !(s.inFlight && s.timer.Some?)
    && (s.inFlight ==> s.fetches == s.polls + 1)
    && (s.timer.Some? ==> s.fetches == s.polls && s.timer.value < s.nextHandle)
    && (s.pollTimeoutId.Some? ==> s.pollTimeoutId.value < s.nextHandle)
    && (s.mounted && s.timer.Some? ==> s.pollTimeoutId == s.timer)
    && (s.submitting ==> PollingIdle(s) && UserKnown(s))
    && (s.mounted && (s.submitting || !PollingIdle(s)) ==> s.currentStep == GeneratingStep)
  }

  lemma InitialInv(userId: Option<string>)
    ensures Inv(Initial(userId)) && PollingIdle(Initial(userId))
    ensures Initial(userId).currentStep == RaceSelectionStep && Initial(userId).calls == []
  {
  }

  /** The common failure path: back to the equipment step with one error,
      the job forgotten. Nothing changes once unmounted. */
  function BackToEquipment(s: WizardState, msg: string): (r: WizardState)
    ensures s.mounted ==> r == s.(errors := [msg], currentStep := EquipmentStep, jobId := None, jobStatus := None)
    ensures !s.mounted ==> r == s
  {
    if s.mounted then s.(errors := [msg], currentStep := EquipmentStep, jobId := None, jobStatus := None)
    else s
  }

  /** `generatePlan`: with a known user, moves to the generating step and
      sends one generation request; without one, does nothing. */
  function GeneratePlan(s: WizardState): (r: WizardState)
    requires HasDefaults(s.formData) && s.formData.raceId.Some?
    ensures !UserKnown(s) ==> r == s
    ensures UserKnown(s) ==>
      r.currentStep == GeneratingStep && r.submitting
      && |r.calls| == |s.calls| + 1 && r.calls[..|s.calls|] == s.calls && r.calls[|s.calls|].Generate?
      && FormOfRequest(r.calls[|s.calls|].request) == CompleteForm(s.formData)
    ensures r == s.(currentStep := r.currentStep, submitting := r.submitting, calls := r.calls)
  {
    if !UserKnown(s) then s
    else
      RequestLosesNothing(s.userId.value, s.formData);
      s.(currentStep := GeneratingStep, submitting := true,
            calls := s.calls + [Generate(BuildRequest(s.userId.value, s.formData))])
  }

  /** `handleStepComplete`: spreads the step's data over the form, clears
      the errors, and moves on; the equipment step validates first. */
  function StepComplete(s: WizardState, stepData: PartialForm): (r: WizardState)
    requires Inv(s) && s.mounted
    ensures r.formData == Spread(s.formData, stepData)
    ensures r.errors == [] || (s.currentStep == EquipmentStep && r.errors == ValidationErrors(r.formData))
    ensures |s.calls| <= |r.calls| <= |s.calls| + 1 && r.calls[..|s.calls|] == s.calls
    ensures |r.calls| > |s.calls| ==>
      s.currentStep == EquipmentStep && ValidationErrors(r.formData) == [] && UserKnown(s)
  {
    var merged := Spread(s.formData, stepData);
    SpreadKeepsDefaults(s.formData, stepData);
    var s1 := s.(formData := merged, errors := []);
    match s.currentStep
    case RaceSelectionStep => s1.(currentStep := ConstraintsStep)
    case ConstraintsStep => s1.(currentStep := EquipmentStep)
    case EquipmentStep =>
      var errs := ValidationErrors(merged);
      if |errs| > 0 then s1.(errors := errs)
      else
        ValidationEmptyIff(merged);
        GeneratePlan(s1)
    case GeneratingStep => s1
  }

  /** `handleBack`. */
  function Back(s: WizardState): (r: WizardState)
    ensures r.errors == []
    ensures s.currentStep == ConstraintsStep ==> r.currentStep == RaceSelectionStep
    ensures s.currentStep == EquipmentStep ==> r.currentStep == ConstraintsStep
    ensures s.currentStep in {RaceSelectionStep, GeneratingStep} ==> r.currentStep == s.currentStep
    ensures r == s.(errors := [], currentStep := r.currentStep)
  {
    var step := match s.currentStep
      case ConstraintsStep => RaceSelectionStep
      case EquipmentStep => ConstraintsStep
      case other => other;
    s.(errors := [], currentStep := step)
  }

  /** The generation request succeeded: the job id is stored and the poll
      closure starts with an immediate status fetch. */
  function SubmitOk(s: WizardState, id: string): (r: WizardState)
    requires s.submitting
    ensures !r.submitting
    ensures s.mounted ==> r.jobId == Some(id)
    ensures !s.mounted ==> r.jobId == s.jobId
    ensures UserKnown(s) ==>
      r.calls == s.calls + [GetStatus(id)] && r.inFlight && r.pollingJob == id && r.polls == 0 && r.fetches == 1
    ensures !UserKnown(s) ==> r.calls == s.calls && r.inFlight == s.inFlight
    ensures r.currentStep == s.currentStep && r.errors == s.errors && r.timer == s.timer
  {
    var s1 := s.(submitting := false);
    var s2 := if s.mounted then s1.(jobId := Some(id)) else s1;
    if UserKnown(s) then
      s2.(pollingJob := id, polls := 0, fetches := 1, inFlight := true, calls := s.calls + [GetStatus(id)])
    else s2
  }

  /** The generation request failed (the mutation's `onError`). */
  function SubmitErr(s: WizardState, message: string): (r: WizardState)
    requires s.submitting
    ensures !r.submitting && r.calls == s.calls && r.formData == s.formData
    ensures s.mounted ==>
      r.errors == [message] && r.currentStep == EquipmentStep && r.jobId.None? && r.jobStatus.None?
    ensures !s.mounted ==> r == s.(submitting := false)
  {
    BackToEquipment(s.(submitting := false), message)
  }

  /** What one status answer leads to, checked in the code's order. */
  datatype PollOutcome = Succeed | Fail(message: string) | Continue | TimeOut | Stop

  function Classify(snap: JobSnapshot, polls: nat): (o: PollOutcome)
    ensures o.Succeed? <==> snap.status == Completed && StringTruthy(snap.resultPlanId)
    ensures o.Fail? <==> snap.status in {Failed, Cancelled}
    ensures o.Fail? && snap.status == Failed ==>
      o.message == (if StringTruthy(snap.errorMessage) then snap.errorMessage.value else GenerationFailed)
    ensures o.Fail? && snap.status == Cancelled ==> o.message == GenerationCancelled
    ensures o.Continue? <==> snap.status in {Pending, Processing} && polls < MaxPolls
    ensures o.TimeOut? <==>
      !(snap.status == Completed && StringTruthy(snap.resultPlanId)) && snap.status !in {Failed, Cancelled}
      && polls >= MaxPolls
    ensures o.Stop? <==>
      !(snap.status == Completed && StringTruthy(snap.resultPlanId)) && snap.status !in {Failed, Cancelled, Pending, Processing}
      && polls < MaxPolls
  {
    if snap.status == Completed && StringTruthy(snap.resultPlanId) then Succeed
    else if snap.status == Failed then
      Fail(if StringTruthy(snap.errorMessage) then snap.errorMessage.value else GenerationFailed)
    else if snap.status == Cancelled then Fail(GenerationCancelled)
    else if (snap.status == Pending || snap.status == Processing) && polls < MaxPolls then Continue
    else if polls >= MaxPolls then TimeOut
    else Stop
  }

  /** A status answer arrives for the outstanding fetch. */
  function Status(s: WizardState, snap: JobSnapshot): (r: WizardState)
    requires s.inFlight
    ensures !r.inFlight && r.calls == s.calls && r.fetches == s.fetches && r.formData == s.formData
    ensures Classify(snap, s.polls).Continue? ==> r.polls == s.polls + 1 && r.timer.Some?
    ensures !Classify(snap, s.polls).Continue? ==> r.polls == s.polls && r.timer == s.timer
    ensures r.successCount == s.successCount + (if Classify(snap, s.polls).Succeed? then 1 else 0)
  {
    Resolve(Answered(s, snap), Classify(snap, s.polls))
  }

  /** The fetch is answered and its status stored. */
  function Answered(s: WizardState, snap: JobSnapshot): WizardState {
    var s1 := s.(inFlight := false);
    if s.mounted then s1.(jobStatus := Some(snap.status)) else s1
  }

  /** What the poll does with the outcome. */
  function Resolve(s: WizardState, o: PollOutcome): WizardState {
    match o
    case Succeed => s.(successCount := s.successCount + 1)
    case Fail(msg) => BackToEquipment(s, msg)
    case Continue =>
      var h := s.nextHandle;
      var s1 := s.(polls := s.polls + 1, timer := Some(h), nextHandle := h + 1);
      if s.mounted then s1.(pollTimeoutId := Some(h)) else s1
    case TimeOut =>
      var s1 := BackToEquipment(s, GenerationTimedOut);
      if s.mounted then s1.(pollTimeoutId := None) else s1
    case Stop => s
  }

  /** The outstanding status fetch threw. */
  function FetchError(s: WizardState): (r: WizardState)
    requires s.inFlight
    ensures !r.inFlight && r.calls == s.calls && r.timer == s.timer && r.polls == s.polls
    ensures s.mounted ==>
      r.errors == [StatusCheckFailed] && r.currentStep == EquipmentStep && r.jobId.None? && r.jobStatus.None?
    ensures !s.mounted ==> r == s.(inFlight := false)
  {
    BackToEquipment(s.(inFlight := false), StatusCheckFailed)
  }

  /** The pending poll timer fires and the closure fetches the status of
      its own job. */
  function Tick(s: WizardState): (r: WizardState)
    requires s.timer.Some?
    ensures r.inFlight && r.timer.None? && r.fetches == s.fetches + 1
    ensures r.calls == s.calls + [GetStatus(s.pollingJob)]
    ensures Inv(s) ==> Inv(r)
  {
    s.(timer := None, inFlight := true, fetches := s.fetches + 1, calls := s.calls + [GetStatus(s.pollingJob)])
  }

  /** The effect's cleanup (on unmount, or when `onClose`, the step or the
      stored handle changes): clears the stored handle's timer, which
      cancels the pending timer only if that is the stored one. */
  function Cleanup(s: WizardState): (r: WizardState)
    ensures r.timer.None? <==> s.timer.None? || s.timer == s.pollTimeoutId
    ensures r == s.(timer := r.timer)
  {
    if s.pollTimeoutId.Some? && s.timer == s.pollTimeoutId then s.(timer := None) else s
  }

  /** The component goes: the cleanup runs, then state updates stop. */
  function Unmount(s: WizardState): (r: WizardState)
    requires s.mounted
    ensures !r.mounted && r.calls == s.calls && r.inFlight == s.inFlight
    ensures r.timer.None? <==> s.timer.None? || s.timer == s.pollTimeoutId
    ensures Inv(s) ==> Inv(r) && r.timer.None?
  {
    Cleanup(s).(mounted := false)
  }

  /** Escape closes the form except while generating. */
  function Escape(s: WizardState): (r: WizardState)
    requires s.mounted
    ensures r.closeCount == s.closeCount + (if s.currentStep != GeneratingStep then 1 else 0)
    ensures r == s.(closeCount := r.closeCount)
  {
    if s.currentStep != GeneratingStep then s.(closeCount := s.closeCount + 1) else s
  }

  /** The close button or a backdrop click: while generating a known job,
      one cancel request is sent first (its failure is ignored); the form
      is closed in every case. */
  function Close(s: WizardState): (r: WizardState)
    requires s.mounted
    ensures r.closeCount == s.closeCount + 1
    ensures s.currentStep == GeneratingStep && StringTruthy(s.jobId) && UserKnown(s) ==>
      r.calls == s.calls + [CancelJob(s.jobId.value)]
    ensures !(s.currentStep == GeneratingStep && StringTruthy(s.jobId) && UserKnown(s)) ==> r.calls == s.calls
    ensures r == s.(calls := r.calls, closeCount := r.closeCount)
  {
    var s1 := if s.currentStep == GeneratingStep && StringTruthy(s.jobId) && UserKnown(s)
      then s.(calls := s.calls + [CancelJob(s.jobId.value)]) else s;
    s1.(closeCount := s.closeCount + 1)
  }

  // ---------------------------------------------------------------------
  // Events and runs

  datatype Event =
    | StepDone(stepData: PartialForm)
    | GoBack
    | SubmitAccepted(id: string)
    | SubmitRejected(message: string)
    | StatusArrived(snap: JobSnapshot)
    | StatusFetchFailed
    | TimerFired
    | EffectCleanup
    | Unmounted
    | EscapePressed
    | CloseClicked

  /** When an event can happen: UI events only while mounted, answers only
      to an outstanding request, a timer only while one is pending. */
  predicate Enabled(s: WizardState, e: Event) {
    match e
    case StepDone(_) => s.mounted
    case GoBack => s.mounted
    case SubmitAccepted(_) => s.submitting
    case SubmitRejected(_) => s.submitting
    case StatusArrived(_) => s.inFlight
    case StatusFetchFailed => s.inFlight
    case TimerFired => s.timer.Some?
    case EffectCleanup => true
    case Unmounted => s.mounted
    case EscapePressed => s.mounted
    case CloseClicked => s.mounted
  }

  function Next(s: WizardState, e: Event): (r: WizardState)
    requires Inv(s) && Enabled(s, e)
  {
    match e
    case StepDone(d) => StepComplete(s, d)
    case GoBack => Back(s)
    case SubmitAccepted(id) => SubmitOk(s, id)
    case SubmitRejected(m) => SubmitErr(s, m)
    case StatusArrived(snap) => Status(s, snap)
    case StatusFetchFailed => FetchError(s)
    case TimerFired => Tick(s)
    case EffectCleanup => Cleanup(s)
    case Unmounted => Unmount(s)
    case EscapePressed => Escape(s)
    case CloseClicked => Close(s)
  }

  lemma StepCompleteKeepsInv(s: WizardState, d: PartialForm)
    requires Inv(s) && s.mounted
    ensures Inv(StepComplete(s, d))
  {
    SpreadKeepsDefaults(s.formData, d);
  }

  lemma StatusKeepsInv(s: WizardState, snap: JobSnapshot)
    requires Inv(s) && s.inFlight
    ensures Inv(Status(s, snap))
  {
  }

  lemma SubmitOkKeepsInv(s: WizardState, id: string)
    requires Inv(s) && s.submitting
    ensures Inv(SubmitOk(s, id))
  {
  }

  /** Every transition keeps the invariant. */
  lemma NextKeepsInv(s: WizardState, e: Event)
    requires Inv(s) && Enabled(s, e)
    ensures Inv(Next(s, e))
  {
    match e
    case StepDone(d) => StepCompleteKeepsInv(s, d);
    case StatusArrived(snap) => StatusKeepsInv(s, snap);
    case _ =>
  }

  /** A run of events from a state; an event that cannot happen in the
      state reached is skipped. */
  function Run(s: WizardState, es: seq<Event>): (r: WizardState)
    requires Inv(s)
    ensures Inv(r)
    decreases |es|
  {
    if es == [] then s
    else
      StepKeepsInv(s, es[0]);
      Run(Step(s, es[0]), es[1..])
  }

  /** One event of a run: it happens if it can. */
  function Step(s: WizardState, e: Event): WizardState
    requires Inv(s)
  {
    if Enabled(s, e) then Next(s, e) else s
  }

  lemma StepKeepsInv(s: WizardState, e: Event)
    requires Inv(s)
    ensures Inv(Step(s, e))
  {
    if Enabled(s, e) {
      NextKeepsInv(s, e);
    }
  }

  /** Whatever happens, one job is fetched at most 61 times: the first
      fetch and one per re-arm, with at most 60 re-arms. */
  lemma AtMostSixtyOneFetches(userId: Option<string>, es: seq<Event>)
    ensures Inv(Initial(userId))
    ensures Run(Initial(userId), es).fetches <= MaxPolls + 1
    ensures Run(Initial(userId), es).polls <= MaxPolls
  {
    InitialInv(userId);
  }

  // ---------------------------------------------------------------------
  // Properties of single transitions

  /** Completing the first two steps moves forward with the merged form
      and no errors, and makes no call. */
  lemma StepCompleteMovesForward(s: WizardState, d: PartialForm)
    requires Inv(s) && s.mounted && s.currentStep in {RaceSelectionStep, ConstraintsStep}
    ensures StepComplete(s, d).formData == Spread(s.formData, d)
    ensures StepComplete(s, d).errors == []
    ensures StepComplete(s, d).calls == s.calls
    ensures s.currentStep == RaceSelectionStep ==> StepComplete(s, d).currentStep == ConstraintsStep
    ensures s.currentStep == ConstraintsStep ==> StepComplete(s, d).currentStep == EquipmentStep
  {
  }

  /** Completing the equipment step: invalid data stores the validation
      errors and stays; valid data without a user does nothing further;
      valid data with a user moves to generating and sends exactly one
      request. */
  lemma EquipmentCompleteThreeWays(s: WizardState, d: PartialForm)
    requires Inv(s) && s.mounted && s.currentStep == EquipmentStep
    ensures var r := StepComplete(s, d);
      var merged := Spread(s.formData, d);
      r.formData == merged
      && (ValidationErrors(merged) != [] ==>
            r.errors == ValidationErrors(merged) && r.currentStep == EquipmentStep
            && r.calls == s.calls && !r.submitting)
      && (ValidationErrors(merged) == [] && !UserKnown(s) ==>
            r.errors == [] && r.currentStep == EquipmentStep && r.calls == s.calls && !r.submitting)
      && (ValidationErrors(merged) == [] && UserKnown(s) ==>
            r.errors == [] && r.currentStep == GeneratingStep && r.submitting
            && merged.raceId.Some? && HasDefaults(merged)
            && r.calls == s.calls + [Generate(BuildRequest(s.userId.value, merged))])
  {
    var merged := Spread(s.formData, d);
    SpreadKeepsDefaults(s.formData, d);
    ValidationEmptyIff(merged);
  }

  /** Every failure path returns to the equipment step, forgets the job,
      ends the polling and leaves the form data alone. */
  lemma FailurePathsReturnToEquipment(s: WizardState, snap: JobSnapshot, message: string)
    requires Inv(s) && s.mounted
    ensures s.submitting ==>
      var r := SubmitErr(s, message);
      r.errors == [message] && r.currentStep == EquipmentStep && r.jobId.None? && r.jobStatus.None?
      && r.formData == s.formData && PollingIdle(r) && r.calls == s.calls
    ensures s.inFlight && Classify(snap, s.polls).Fail? ==>
      var r := Status(s, snap);
      r.errors == [Classify(snap, s.polls).message] && r.currentStep == EquipmentStep
      && r.jobId.None? && r.jobStatus.None? && r.formData == s.formData && PollingIdle(r)
    ensures s.inFlight && Classify(snap, s.polls).TimeOut? ==>
      var r := Status(s, snap);
      r.errors == [GenerationTimedOut] && r.currentStep == EquipmentStep
      && r.jobId.None? && r.jobStatus.None? && r.pollTimeoutId.None? && r.formData == s.formData && PollingIdle(r)
    ensures s.inFlight ==>
      var r := FetchError(s);
      r.errors == [StatusCheckFailed] && r.currentStep == EquipmentStep
      && r.jobId.None? && r.jobStatus.None? && r.formData == s.formData && PollingIdle(r)
  {
  }

  /** A completed job with a plan id calls `onSuccess` once and schedules
      nothing further. */
  lemma CompletedStopsPolling(s: WizardState, snap: JobSnapshot)
    requires Inv(s) && s.inFlight
    requires snap.status == Completed && StringTruthy(snap.resultPlanId)
    ensures Status(s, snap).successCount == s.successCount + 1
    ensures PollingIdle(Status(s, snap))
    ensures Status(s, snap).calls == s.calls && Status(s, snap).errors == s.errors
  {
  }

  /** A pending or processing job re-arms the timer only below the
      ceiling; at the ceiling polling stops with the time-out message. */
  lemma InProgressRearmsBelowCeiling(s: WizardState, snap: JobSnapshot)
    requires Inv(s) && s.inFlight && snap.status in {Pending, Processing}
    ensures s.polls < MaxPolls ==>
      Status(s, snap).timer.Some? && Status(s, snap).polls == s.polls + 1
      && Status(s, snap).successCount == s.successCount && Status(s, snap).errors == s.errors
    ensures s.polls >= MaxPolls ==>
      PollingIdle(Status(s, snap)) && (s.mounted ==> Status(s, snap).errors == [GenerationTimedOut])
  {
  }

  /** A completed job without a plan id, or an unknown status, below the
      ceiling stops polling silently: no success, no error, no step change. */
  lemma SilentStop(s: WizardState, snap: JobSnapshot)
    requires Inv(s) && s.inFlight && s.polls < MaxPolls
    requires snap.status !in {Failed, Cancelled, Pending, Processing}
    requires !(snap.status == Completed && StringTruthy(snap.resultPlanId))
    ensures PollingIdle(Status(s, snap))
    ensures Status(s, snap).successCount == s.successCount
    ensures Status(s, snap).errors == s.errors && Status(s, snap).currentStep == s.currentStep
    ensures Status(s, snap).calls == s.calls
  {
  }

  /** While mounted, the cleanup cancels the pending poll timer. */
  lemma CleanupWhileMountedCancelsTimer(s: WizardState)
    requires Inv(s) && s.mounted
    ensures Cleanup(s).timer.None?
    ensures Unmount(s).timer.None? && Unmount(s).inFlight == s.inFlight
  {
  }

  /**
    The teardown only clears the stored handle: if the component goes
    while a status fetch is outstanding, the answer still re-arms a timer,
    which nothing clears, and the poll goes on fetching.
  */
  lemma LateAnswerRearmsAfterUnmount(s: WizardState, snap: JobSnapshot)
    requires Inv(s) && s.mounted && s.inFlight && s.polls < MaxPolls
    requires snap.status == Processing
    ensures !Unmount(s).mounted && Unmount(s).inFlight
    ensures Status(Unmount(s), snap).timer.Some?
    ensures Cleanup(Status(Unmount(s), snap)).timer.Some?
    ensures Tick(Status(Unmount(s), snap)).calls == s.calls + [GetStatus(s.pollingJob)]
  {
  }

  // ---------------------------------------------------------------------
  // The component

  class Wizard {
    const userId: Option<string>
    var mounted: bool
    var currentStep: FormStep
    var formData: PartialForm
    var errors: seq<string>
    var jobId: Option<string>
    var jobStatus: Option<JobStatus>
    var pollTimeoutId: Option<nat>
    var submitting: bool
    var pollingJob: string
    var polls: nat
    var fetches: nat
    var inFlight: bool
    var timer: Option<nat>
    var nextHandle: nat
    var calls: seq<ServiceCall>
    var successCount: nat
    var closeCount: nat

    function State(): WizardState
      reads this
    {
      WizardState(userId, mounted, currentStep, formData, errors, jobId, jobStatus, pollTimeoutId,
        submitting, pollingJob, polls, fetches, inFlight, timer, nextHandle, calls, successCount, closeCount)
    }

    predicate Valid()
      reads this
    {
      Inv(State())
    }

    constructor(userId: Option<string>)
      ensures Valid() && State() == Initial(userId)
    {
      this.userId := userId;
      mounted := true;
      currentStep := RaceSelectionStep;
      formData := InitialFormData;
      errors := [];
      jobId := None;
      jobStatus := None;
      pollTimeoutId := None;
      submitting := false;
      pollingJob := "";
      polls := 0;
      fetches := 0;
      inFlight := false;
      timer := None;
      nextHandle := 0;
      calls := [];
      successCount := 0;
      closeCount := 0;
    }

    /** The failure path's state updates, dropped once unmounted. */
    method ReturnToEquipment(message: string)
      modifies this
      ensures State() == BackToEquipment(old(State()), message)
    {
      if mounted {
        errors := [message];
        currentStep := EquipmentStep;
        jobId := None;
        jobStatus := None;
      }
    }

    /** `handleStepComplete`. */
    method HandleStepComplete(stepData: PartialForm)
      requires Valid() && mounted
      modifies this
      ensures Valid() && State() == StepComplete(old(State()), stepData)
    {
      ghost var s0 := State();
      var updatedData := Spread(formData, stepData);
      SpreadKeepsDefaults(formData, stepData);
      formData := updatedData;
      errors := [];
      ghost var s1 := State();
      assert s1 == s0.(formData := updatedData, errors := []);
      if currentStep == RaceSelectionStep {
        currentStep := ConstraintsStep;
        assert State() == s1.(currentStep := ConstraintsStep);
      } else if currentStep == ConstraintsStep {
        currentStep := EquipmentStep;
        assert State() == s1.(currentStep := EquipmentStep);
      } else if currentStep == EquipmentStep {
        var validationErrors := ValidateTrainingPlanForm(updatedData);
        if |validationErrors| > 0 {
          errors := validationErrors;
          assert State() == s1.(errors := validationErrors);
        } else {
          ValidationEmptyIff(updatedData);
          GeneratePlanNow();
          assert State() == GeneratePlan(s1);
        }
      }
      assert State() == StepComplete(s0, stepData);
      StepCompleteKeepsInv(s0, stepData);
    }

    /** `generatePlan`: nothing without a user; otherwise the generating
        step and one generation request. */
    method GeneratePlanNow()
      requires HasDefaults(formData) && formData.raceId.Some?
      modifies this
      ensures State() == GeneratePlan(old(State()))
    {
      if userId.Some? && userId.value != "" {
        currentStep := GeneratingStep;
        submitting := true;
        calls := calls + [Generate(BuildRequest(userId.value, formData))];
      }
    }

    /** `handleBack`. */
    method HandleBack()
      requires Valid() && mounted
      modifies this
      ensures Valid() && State() == Back(old(State()))
    {
      errors := [];
      if currentStep == ConstraintsStep {
        currentStep := RaceSelectionStep;
      } else if currentStep == EquipmentStep {
        currentStep := ConstraintsStep;
      }
    }

    /** The generation request answered with a job id: store it and start
        polling with an immediate fetch. */
    method OnSubmitOk(id: string)
      requires Valid() && submitting
      modifies this
      ensures Valid() && State() == SubmitOk(old(State()), id)
    {
      ghost var s0 := State();
      submitting := false;
      if mounted {
        jobId := Some(id);
      }
      if userId.Some? && userId.value != "" {
        StartPolling(id);
      }
      assert State() == SubmitOk(s0, id);
      SubmitOkKeepsInv(s0, id);
    }

    /** `pollJobStatus` for a known user: a fresh poll count and an
        immediate status fetch. */
    method StartPolling(id: string)
      modifies this
      ensures State() == old(State()).(pollingJob := id, polls := 0, fetches := 1, inFlight := true,
        calls := old(calls) + [GetStatus(id)])
    {
      pollingJob := id;
      polls := 0;
      fetches := 1;
      inFlight := true;
      calls := calls + [GetStatus(id)];
    }

    /** The mutation's `onError`. */
    method OnSubmitErr(message: string)
      requires Valid() && submitting
      modifies this
      ensures Valid() && State() == SubmitErr(old(State()), message)
    {
      submitting := false;
      ReturnToEquipment(message);
    }

    /** The body of `poll` after the status fetch resolved; the checks
        are made in the order `Classify` states. */
    method OnStatus(snap: JobSnapshot)
      requires Valid() && inFlight
      modifies this
      ensures Valid() && State() == Status(old(State()), snap)
    {
      ghost var s0 := State();
      inFlight := false;
      if mounted {
        jobStatus := Some(snap.status);
      }
      ghost var s1 := State();
      assert s1 == Answered(s0, snap);
      var outcome := Classify(snap, polls);
      match outcome {
        case Succeed =>
          successCount := successCount + 1;
        case Fail(message) =>
          ReturnToEquipment(message);
        case Continue =>
          Rearm();
        case TimeOut =>
          ReturnToEquipment(GenerationTimedOut);
          if mounted {
            pollTimeoutId := None;
          }
        case Stop =>
      }
      assert State() == Resolve(s1, outcome);
      StatusKeepsInv(s0, snap);
    }

    /** `polls++` and a new timer whose handle is stored. */
    method Rearm()
      modifies this
      ensures State() == old(State()).(polls := old(polls) + 1, timer := Some(old(nextHandle)),
        nextHandle := old(nextHandle) + 1,
        pollTimeoutId := if old(mounted) then Some(old(nextHandle)) else old(pollTimeoutId))
    {
      polls := polls + 1;
      var handle := nextHandle;
      nextHandle := nextHandle + 1;
      timer := Some(handle);
      if mounted {
        pollTimeoutId := Some(handle);
      }
    }

    /** The `catch` of `poll`: the first fetch error ends polling. */
    method OnFetchError()
      requires Valid() && inFlight
      modifies this
      ensures Valid() && State() == FetchError(old(State()))
    {
      inFlight := false;
      ReturnToEquipment(StatusCheckFailed);
    }

    /** The pending poll timer fires. */
    method OnTimer()
      requires Valid() && timer.Some?
      modifies this
      ensures Valid() && State() == Tick(old(State()))
    {
      timer := None;
      inFlight := true;
      fetches := fetches + 1;
      calls := calls + [GetStatus(pollingJob)];
    }

    /** The effect's cleanup: `clearTimeout` of the stored handle. */
    method RunCleanup()
      requires Valid()
      modifies this
      ensures Valid() && State() == Cleanup(old(State()))
    {
      if pollTimeoutId.Some? && timer == pollTimeoutId {
        timer := None;
      }
    }

    method OnUnmount()
      requires Valid() && mounted
      modifies this
      ensures Valid() && State() == Unmount(old(State()))
    {
      RunCleanup();
      mounted := false;
    }

    /** The keydown listener. */
    method OnEscape()
      requires Valid() && mounted
      modifies this
      ensures Valid() && State() == Escape(old(State()))
    {
      if currentStep != GeneratingStep {
        closeCount := closeCount + 1;
      }
    }

    /** The close button and the backdrop click. */
    method OnClose()
      requires Valid() && mounted
      modifies this
      ensures Valid() && State() == Close(old(State()))
    {
      if currentStep == GeneratingStep && jobId.Some? && jobId.value != "" && userId.Some? && userId.value != "" {
        calls := calls + [CancelJob(jobId.value)];
      }
      closeCount := closeCount + 1;
    }
  }
}
