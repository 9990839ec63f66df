# Athlete IQ front end — a Dafny model of its client-side logic

Athlete IQ is a Next.js/React front end for an endurance-training service.
It shows Strava-derived fitness data, lets an athlete keep a list of races,
and walks them through a wizard that asks an AI service for a training plan.
This project models the logic the browser runs itself and proves
properties of that model:

- **TrainingPlanForm**: the four-step plan wizard. It accumulates a form by
  spreading each step's data over it, validates it before submitting, and
  sends one generation job. It then polls the job's status through a
  re-armed two-second timer, up to 60 times. Every failure returns the
  wizard to the equipment step. Each event is a transition function on a
  `WizardState` value, and the `Wizard` class performs exactly those
  transitions on its fields.
- **ConstraintsForm**, **EquipmentPreferences**, **RaceSelection**,
  **GenerationProgress**: the wizard's step editors, its race picker and
  its progress animation, as classes whose methods update their state.
- **PlanUtils**: the training-plan helpers (validation, countdown, sorting,
  week statistics, grouping by sport, next workout, duration labels).
- **PlanTypes**, **RaceTypes**: the enumerations and constant tables.
- **RaceUtils**, **RaceForm**: race countdowns, sorting, and the race form's
  validation.
- **PhaseTimeline**: the week-range parser and the phase bar of a plan.
- **ActivityIngestion**, **ChatInterface**, **FitnessInsights**,
  **DeleteDataButton**: dashboard panels. Their service answers arrive as
  explicit method calls.
- **TssHeatmap**, **FitnessMetricsChart**, **Strava**: aggregation, colour
  bands, calendars, date windows and label formatting of the dashboard
  charts.
- Helper modules:
  - `Wrappers` (Option);
  - `Text` (JavaScript string operations: `trim`, `split`, `parseInt`, number printing);
  - `Numbers` (`Math.floor`/`Math.round`);
  - `Sorting` (a stable sort by key, `filter`);
  - `Lists` (the list edits of the step editors);
  - `Sessions` (the signed-in user and the `id || stravaId` rule).

Conventions:

- Dates are whole day numbers, the day of their UTC midnight.
- "Today" and "now" are parameters. `Now(day, time)` holds a day number and
  the fraction of that day that has passed.
- Hours and stress scores are exact `real`s.
- Network calls, timers and parent callbacks are events or recorded calls.

## Model

| member | source | states |
|---|---|---|
| TrainingPlanForm.SpreadKeepsDefaults | src/components/training-plan/TrainingPlanForm.tsx:25-37 | the accumulated form keeps every default key through any spread |
| TrainingPlanForm.OrUndefined | src/components/training-plan/TrainingPlanForm.tsx:189-194 | a list goes into the request only when non-empty, otherwise `undefined` |
| TrainingPlanForm.BuildRequest | src/components/training-plan/TrainingPlanForm.tsx:183-198 | the request carries the user id, race and training time; each list key is absent exactly when the form's list is empty |
| TrainingPlanForm.RequestLosesNothing | src/components/training-plan/TrainingPlanForm.tsx:183-198 | reading the request back (an absent list as empty) gives the complete form: nothing is lost by the `undefined` mapping |
| TrainingPlanForm.InitialInv | src/components/training-plan/TrainingPlanForm.tsx:24-41 | the wizard starts on race selection, no calls made, timer idle, invariant holding |
| TrainingPlanForm.BackToEquipment | src/components/training-plan/TrainingPlanForm.tsx:87-92 | a failure sets the error list, the equipment step, and null job id and status, changing nothing else (and nothing at all once unmounted) |
| TrainingPlanForm.GeneratePlan | src/components/training-plan/TrainingPlanForm.tsx:178-201 | without a user nothing changes; with one, the generating step, submitting, and exactly one more call: a generation request that reads back as the complete form |
| TrainingPlanForm.StepComplete | src/components/training-plan/TrainingPlanForm.tsx:154-176 | the step data is spread over the form; errors are cleared, or on the equipment step replaced by the validation errors; at most one call is added, and only for valid equipment data with a user |
| TrainingPlanForm.SubmitOk | src/components/training-plan/TrainingPlanForm.tsx:79-86 | the submission ends; the job id is stored while mounted; with a user, polling restarts for that job with one status fetch in flight and sent; step, errors and timer unchanged |
| TrainingPlanForm.SubmitErr | src/components/training-plan/TrainingPlanForm.tsx:87-92 | the submission ends with no call; while mounted, the message, the equipment step and a null job; unmounted, nothing else changes |
| TrainingPlanForm.Status | src/components/training-plan/TrainingPlanForm.tsx:102-141 | the fetch is answered with no new call; a poll is counted and a timer armed exactly when the answer continues; `onSuccess` is called once exactly on success |
| TrainingPlanForm.FetchError | src/components/training-plan/TrainingPlanForm.tsx:142-147 | the fetch ends with no new call and no timer change; while mounted, the status-check message, the equipment step and a null job; unmounted, nothing else changes |
| TrainingPlanForm.Tick | src/components/training-plan/TrainingPlanForm.tsx:102-104 | the timer is consumed and one status fetch of the closure's own job goes out; the invariant is kept |
| TrainingPlanForm.Unmount | src/components/training-plan/TrainingPlanForm.tsx:54-60 | unmounted with the same calls and fetch; the timer survives only when it is not the stored handle; from a valid state, the timer is cleared and the invariant kept |
| TrainingPlanForm.Back | src/components/training-plan/TrainingPlanForm.tsx:203-213 | errors cleared; constraints→race selection, equipment→constraints, other steps unchanged; nothing else changes |
| TrainingPlanForm.Classify | src/components/training-plan/TrainingPlanForm.tsx:107-141 | a status answer succeeds iff completed with a plan id; fails iff failed/cancelled (with the message or its default); continues iff pending/processing under 60 polls; times out iff at the ceiling; stops silently otherwise |
| TrainingPlanForm.Cleanup | src/components/training-plan/TrainingPlanForm.tsx:54-60 | the effect cleanup clears the timer only when it is the stored handle; nothing else changes |
| TrainingPlanForm.Escape | src/components/training-plan/TrainingPlanForm.tsx:46-51 | Escape closes (one `onClose`) exactly outside the generating step |
| TrainingPlanForm.Close | src/components/training-plan/TrainingPlanForm.tsx:227-266 | closing always calls `onClose` once; it sends one cancel for the job exactly when generating with a job id and a user |
| TrainingPlanForm.StepCompleteKeepsInv | src/components/training-plan/TrainingPlanForm.tsx:154-176 | completing a step preserves the wizard invariant |
| TrainingPlanForm.StatusKeepsInv | src/components/training-plan/TrainingPlanForm.tsx:102-148 | a status answer preserves the invariant |
| TrainingPlanForm.SubmitOkKeepsInv | src/components/training-plan/TrainingPlanForm.tsx:79-86 | an accepted generation request keeps the invariant |
| TrainingPlanForm.NextKeepsInv | src/components/training-plan/TrainingPlanForm.tsx:46-266 | every enabled event preserves the invariant |
| TrainingPlanForm.Run | src/components/training-plan/TrainingPlanForm.tsx:46-266 | any sequence of events from a valid state ends in a valid state |
| TrainingPlanForm.StepKeepsInv | src/components/training-plan/TrainingPlanForm.tsx:46-266 | an event, or its absence when not enabled, preserves the invariant |
| TrainingPlanForm.AtMostSixtyOneFetches | src/components/training-plan/TrainingPlanForm.tsx:98-141 | over any event sequence one job has at most 61 status fetches and at most 60 re-arms |
| TrainingPlanForm.StepCompleteMovesForward | src/components/training-plan/TrainingPlanForm.tsx:154-165 | race selection→constraints, constraints→equipment; the step data is spread over the form, errors cleared, no call made |
| TrainingPlanForm.EquipmentCompleteThreeWays | src/components/training-plan/TrainingPlanForm.tsx:166-200 | on equipment: validation errors are stored and nothing is sent; else without a user nothing happens; else generating and exactly one request |
| TrainingPlanForm.FailurePathsReturnToEquipment | src/components/training-plan/TrainingPlanForm.tsx:87-147 | submission error, failed, cancelled, timeout and fetch error each leave equipment, null job, their own message, and the form unchanged |
| TrainingPlanForm.CompletedStopsPolling | src/components/training-plan/TrainingPlanForm.tsx:107-112 | a completed answer with a plan id calls `onSuccess` once and schedules nothing |
| TrainingPlanForm.InProgressRearmsBelowCeiling | src/components/training-plan/TrainingPlanForm.tsx:131-141 | pending/processing below 60 re-arms the timer and counts a poll; at 60 it times out |
| TrainingPlanForm.SilentStop | src/components/training-plan/TrainingPlanForm.tsx:107-141 | completed without a plan id, or an unknown status, below the ceiling: no timer, no success, no error, same step |
| TrainingPlanForm.CleanupWhileMountedCancelsTimer | src/components/training-plan/TrainingPlanForm.tsx:54-60 | while no fetch is in flight the cleanup clears the pending timer |
| TrainingPlanForm.LateAnswerRearmsAfterUnmount | src/components/training-plan/TrainingPlanForm.tsx:131-134 | a processing answer arriving after unmount arms a timer no cleanup clears, and it fetches again |
| TrainingPlanForm.Wizard.constructor | src/components/training-plan/TrainingPlanForm.tsx:24-41 | the fields hold the initial state |
| TrainingPlanForm.Wizard.ReturnToEquipment | src/components/training-plan/TrainingPlanForm.tsx:87-92 | performs `BackToEquipment` on the fields |
| TrainingPlanForm.Wizard.HandleStepComplete | src/components/training-plan/TrainingPlanForm.tsx:154-176 | performs the step-completion transition and keeps `Valid` |
| TrainingPlanForm.Wizard.GeneratePlanNow | src/components/training-plan/TrainingPlanForm.tsx:178-201 | performs `generatePlan`: nothing without a user, else generating and one request |
| TrainingPlanForm.Wizard.HandleBack | src/components/training-plan/TrainingPlanForm.tsx:203-213 | performs `Back` |
| TrainingPlanForm.Wizard.OnSubmitOk | src/components/training-plan/TrainingPlanForm.tsx:79-86 | stores the job id and starts the first status fetch |
| TrainingPlanForm.Wizard.StartPolling | src/components/training-plan/TrainingPlanForm.tsx:95-100 | polling restarts for the job: count 0, one status fetch in flight and sent, nothing else changed |
| TrainingPlanForm.Wizard.OnSubmitErr | src/components/training-plan/TrainingPlanForm.tsx:87-92 | the submission error returns to equipment |
| TrainingPlanForm.Wizard.OnStatus | src/components/training-plan/TrainingPlanForm.tsx:104-141 | performs the status transition for the answer |
| TrainingPlanForm.Wizard.Rearm | src/components/training-plan/TrainingPlanForm.tsx:132-134 | counts a poll and stores a fresh timer handle |
| TrainingPlanForm.Wizard.OnFetchError | src/components/training-plan/TrainingPlanForm.tsx:142-147 | the first fetch error ends polling and returns to equipment |
| TrainingPlanForm.Wizard.OnTimer | src/components/training-plan/TrainingPlanForm.tsx:102-104 | the timer fires one status fetch |
| TrainingPlanForm.Wizard.RunCleanup | src/components/training-plan/TrainingPlanForm.tsx:54-60 | performs `Cleanup` |
| TrainingPlanForm.Wizard.OnUnmount | src/components/training-plan/TrainingPlanForm.tsx:54-60 | runs the cleanup and marks the wizard unmounted |
| TrainingPlanForm.Wizard.OnEscape | src/components/training-plan/TrainingPlanForm.tsx:46-51 | performs `Escape` |
| TrainingPlanForm.Wizard.OnClose | src/components/training-plan/TrainingPlanForm.tsx:227-266 | performs `Close` |
| PlanUtils.DaysFromNow | src/lib/training-plan-utils.ts:19 | `differenceInDays` truncates: negative exactly for earlier days, zero for today and for tomorrow after midnight, within a day of the exact difference |
| PlanUtils.DaysSince | src/lib/training-plan-utils.ts:26 | the reverse difference is the negation |
| PlanUtils.CurrentWeek | src/lib/training-plan-utils.ts:22-30 | a current week exists only for a plan that is not past; it lies in 1..number of weekly plans, and the days since the start fall in that week; otherwise the plan is past, not started, or over |
| PlanUtils.WithCountdown | src/lib/training-plan-utils.ts:17-37 | the plan is kept, its countdown is today's difference, past iff the race day is before today |
| PlanUtils.AddCountdownToTrainingPlans | src/lib/training-plan-utils.ts:14-39 | one well-formed countdown per plan, in order |
| PlanUtils.SortTrainingPlansByRaceDate | src/lib/training-plan-utils.ts:44-62 | a permutation; upcoming before past, upcoming ascending and past descending by race date |
| PlanUtils.GetActiveTrainingPlans | src/lib/training-plan-utils.ts:67-69 | exactly the plans that are not past |
| PlanUtils.ActivePlansOfAppend | src/lib/training-plan-utils.ts:67-69 | the filter keeps relative order |
| PlanUtils.FormatPlanDuration | src/lib/training-plan-utils.ts:74-87 | below 4: "w week(s)"; multiples of 4: "m month(s)"; otherwise "mm rw" with m = w div 4, r = w mod 4 |
| PlanUtils.PlanDurationRoundTrip | src/lib/training-plan-utils.ts:74-87 | the label reads back to the number of weeks |
| PlanUtils.FormatWorkoutDuration | src/lib/training-plan-utils.ts:92-105 | below 60: "Nmin"; whole hours "Hh"; otherwise "Hh Mm" |
| PlanUtils.WorkoutDurationRoundTrip | src/lib/training-plan-utils.ts:92-105 | the label reads back to the number of minutes |
| PlanUtils.FormatPace | src/lib/training-plan-utils.ts:110-113 | the pace text, or "" when absent |
| PlanUtils.GetPhaseColor | src/lib/training-plan-utils.ts:128-130 | every phase has a `#RRGGBB` colour |
| PlanUtils.CalculatePlanProgress | src/lib/training-plan-utils.ts:135-140 | 100 for past plans, 0 with no current week; with a current week, 100 for a zero duration, otherwise min(100, round(week·100/duration)): the result is at most half a point below the ratio, and below the cap it is within half a point of it; never above 100, not negative for a non-negative duration |
| PlanUtils.ProgressMonotone | src/lib/training-plan-utils.ts:135-140 | progress never goes down as the current week advances |
| PlanUtils.FindWeek | src/lib/training-plan-utils.ts:146 | `find` by week number: the first matching index, or none when no week matches |
| PlanUtils.GetCurrentPhase | src/lib/training-plan-utils.ts:118-123 | none for past plans or no current week; else the phase of the first week with that number, none when there is no such week |
| PlanUtils.GetWeekWorkouts | src/lib/training-plan-utils.ts:145-148 | the workouts of the first week with that number, or none |
| PlanUtils.SumTssPositive | src/lib/training-plan-utils.ts:156-162 | with no negative targets the total is positive iff some workout has a positive target |
| PlanUtils.GetWeekStats | src/lib/training-plan-utils.ts:153-166 | training plus rest days is the number of workouts; each total is present iff positive, and then equals the sum |
| PlanUtils.FindSport | src/lib/training-plan-utils.ts:175 | the index of the sport's group, or the end when it has none |
| PlanUtils.GroupSizesUpdate | src/lib/training-plan-utils.ts:178 | replacing a group changes the grouped count by the size difference |
| PlanUtils.GroupSizesAppend | src/lib/training-plan-utils.ts:176 | appending a group adds its size |
| PlanUtils.Summarize | src/lib/training-plan-utils.ts:182-187 | a row carries its sport and its group's size |
| PlanUtils.Summaries | src/lib/training-plan-utils.ts:182-187 | one row per group, in key order; counts add up to the grouped workouts |
| PlanUtils.OfSportSnoc | src/lib/training-plan-utils.ts:172-180 | a sport's workouts grow by the new workout exactly when it is a training workout of that sport |
| PlanUtils.TrainingCountSnoc | src/lib/training-plan-utils.ts:173 | rest days are not counted |
| PlanUtils.AddToGroupsDistinct | src/lib/training-plan-utils.ts:175-178 | the reducer never creates a second group for a sport |
| PlanUtils.OfSportEmpty | src/lib/training-plan-utils.ts:172-180 | a sport with no training workout has an empty group |
| PlanUtils.AddToGroupsHold | src/lib/training-plan-utils.ts:172-180 | each group holds exactly its sport's training workouts after the step |
| PlanUtils.AddToGroupsCover | src/lib/training-plan-utils.ts:172-180 | every sport of a training workout has a group after the step |
| PlanUtils.AddToGroupsSizes | src/lib/training-plan-utils.ts:172-180 | the grouped count equals the number of training workouts after the step |
| PlanUtils.AddToGroupsStep | src/lib/training-plan-utils.ts:172-180 | the reducer preserves the meaning of the accumulator |
| PlanUtils.SummariesOfGroups | src/lib/training-plan-utils.ts:182-187 | the rows built from groups that mean a list of workouts summarise that list by sport |
| PlanUtils.GroupWorkoutsBySport | src/lib/training-plan-utils.ts:171-188 | `RowsBySport`: one row per sport with a training workout, each with that sport's count, minutes and TSS; rest days excluded; counts sum to the training workouts; `RowsInFirstOrder`: rows in the order their sports first train |
| PlanUtils.GroupBySport | src/lib/training-plan-utils.ts:171-181 | the loop builds exactly the groups of the left fold over the workouts: each sport with a training workout gets one group of exactly its workouts, in the order of first appearance |
| PlanUtils.GroupsFoldGroups | src/lib/training-plan-utils.ts:171-181 | the fold of the accumulation step groups every training workout under its sport and keeps the groups in first-appearance order |
| PlanUtils.FirstIndex | src/lib/training-plan-utils.ts:172-181 | the index of the sport's first training workout, none of the earlier ones training it; the length when there is none |
| PlanUtils.FirstIndexIsFirst | src/lib/training-plan-utils.ts:172-181 | no workout before that index trains the sport |
| PlanUtils.AddToGroupsOrder | src/lib/training-plan-utils.ts:175-178 | the reducer keeps the groups in first-training order: a new sport's group goes last |
| PlanUtils.NewSportFirstTrainsNow | src/lib/training-plan-utils.ts:175-177 | a sport without a group first trains at the workout that creates its group |
| PlanUtils.SummariesInFirstOrder | src/lib/training-plan-utils.ts:182-187 | `Object.entries` keeps the groups' order in the rows |
| PlanUtils.NextInWeek | src/lib/training-plan-utils.ts:269-275 | the earliest upcoming training workout of the week, none iff the week has none |
| PlanUtils.NextInWeekIsFirst | src/lib/training-plan-utils.ts:269-275 | on a shared earliest date the stable sort picks the first in the week's order: every upcoming workout before it is later |
| PlanUtils.EarliestUpcomingHead | src/lib/training-plan-utils.ts:269-275 | the head of the sorted upcoming workouts is an upcoming workout of the week with a date no later than any other upcoming one |
| PlanUtils.NoUpcomingLeft | src/lib/training-plan-utils.ts:269-275 | when filtering and sorting leave nothing, no workout of the week is upcoming |
| PlanUtils.FirstWeekAtUnique | src/lib/training-plan-utils.ts:266 | the first week with a number is unique |
| PlanUtils.UpcomingInWeek | src/lib/training-plan-utils.ts:266-275 | the next workout of the first week with that number, none when that week has none or is missing |
| PlanUtils.NextWorkoutFromFirst | src/lib/training-plan-utils.ts:265-278 | the scan answers the first week in range with an upcoming workout; none iff no week in range has one |
| PlanUtils.GetNextWorkout | src/lib/training-plan-utils.ts:258-279 | none for a past plan or no current week; otherwise the scan from the current week to the plan's duration |
| PlanUtils.DisruptionError | src/lib/training-plan-utils.ts:216-231 | none iff every disruption is complete and ends after it starts; otherwise the message of the first disruption that fails: the incomplete message if it lacks a date, else the out-of-order message |
| PlanUtils.DisruptionErrorAt | src/lib/training-plan-utils.ts:216-231 | one step of the scan: from position i the error is the next position's when disruption i passes, else disruption i's own message |
| PlanUtils.FirstFailureShift | src/lib/training-plan-utils.ts:216-231 | past a passing first disruption, the first failure of the rest is the first failure of the list, one index later |
| PlanUtils.ValidateTrainingPlanForm | src/lib/training-plan-utils.ts:193-234 | the errors are exactly the failed checks in their fixed order |
| PlanUtils.CheckFields | src/lib/training-plan-utils.ts:196-214 | the five field checks push their messages in order; a zero count or zero hours fails like a missing one |
| PlanUtils.CheckDisruptions | src/lib/training-plan-utils.ts:216-231 | the loop stops at the first incomplete or out-of-order disruption and reports only that one |
| PlanUtils.ValidationEmptyIff | src/lib/training-plan-utils.ts:193-234 | no errors iff race set, 1≤days≤7, 0.1≤hours≤30, experience set, preferred days ≤ days per week, every disruption complete and increasing |
| PlanUtils.ErrorsInCheckOrder | src/lib/training-plan-utils.ts:196-231 | messages in strictly increasing check order, at most one disruption message, at most six in all |
| PlanUtils.FieldErrorsRanked | src/lib/training-plan-utils.ts:196-214 | the field messages alone come in check order, at most five |
| ConstraintsForm.InitialConstraints | src/components/training-plan/ConstraintsForm.tsx:13-22 | exactly the eight constraint keys; a falsy number or absent value takes its default (4, 6, intermediate, [], ["Sunday"], [], []), a present list is kept |
| ConstraintsForm.InitialConstraintsIdempotent | src/components/training-plan/ConstraintsForm.tsx:13-22 | applying the defaults to what the step hands on changes nothing |
| ConstraintsForm.InitialConstraintsKeepsChoices | src/components/training-plan/ConstraintsForm.tsx:13-22 | explicit choices survive, even an empty rest-day list |
| ConstraintsForm.ConstraintsEditor.constructor | src/components/training-plan/ConstraintsForm.tsx:13-30 | the local form has its defaults and the drafts are empty |
| ConstraintsForm.ConstraintsEditor.SetDaysPerWeek | src/components/training-plan/ConstraintsForm.tsx:97 | changes only the days per week |
| ConstraintsForm.ConstraintsEditor.SetMaxHoursPerWeek | src/components/training-plan/ConstraintsForm.tsx:118 | changes only the hours |
| ConstraintsForm.ConstraintsEditor.SetExperience | src/components/training-plan/ConstraintsForm.tsx:133 | changes only the experience level |
| ConstraintsForm.ConstraintsEditor.SetTrainingTime | src/components/training-plan/ConstraintsForm.tsx:203 | changes only the training time; the empty option stores `undefined` |
| ConstraintsForm.ConstraintsEditor.ToggleDay | src/components/training-plan/ConstraintsForm.tsx:36-43 | the chosen list is toggled, everything else kept |
| ConstraintsForm.ConstraintsEditor.SetDraftStart | src/components/training-plan/ConstraintsForm.tsx:245 | changes only the draft's start |
| ConstraintsForm.ConstraintsEditor.SetDraftEnd | src/components/training-plan/ConstraintsForm.tsx:252 | changes only the draft's end |
| ConstraintsForm.ConstraintsEditor.SetDraftDescription | src/components/training-plan/ConstraintsForm.tsx:260 | changes only the draft's description |
| ConstraintsForm.ConstraintsEditor.AddDisruption | src/components/training-plan/ConstraintsForm.tsx:45-51 | a complete draft is appended and reset; an incomplete one changes nothing; no date-order check |
| ConstraintsForm.ConstraintsEditor.RemoveDisruption | src/components/training-plan/ConstraintsForm.tsx:53-56 | drops exactly that index |
| ConstraintsForm.ConstraintsEditor.SetNewInjury | src/components/training-plan/ConstraintsForm.tsx:301 | changes only the injury draft |
| ConstraintsForm.ConstraintsEditor.AddInjury | src/components/training-plan/ConstraintsForm.tsx:58-64 | a non-blank draft is appended trimmed and cleared; a blank one changes nothing |
| ConstraintsForm.ConstraintsEditor.RemoveInjury | src/components/training-plan/ConstraintsForm.tsx:66-69 | drops exactly that index |
| ConstraintsForm.ConstraintsEditor.Next | src/components/training-plan/ConstraintsForm.tsx:71-73 | hands on the whole local form, which has exactly the constraint keys |
| ConstraintsForm.AddedInjuryIsClean | src/components/training-plan/ConstraintsForm.tsx:59-60 | an added injury is non-blank and already trimmed |
| Lists.RemoveAll | src/components/training-plan/ConstraintsForm.tsx:39 | `filter(d => d !== day)`: the value is gone, every other value keeps its count |
| Lists.RemoveAllAbsent | src/components/training-plan/ConstraintsForm.tsx:39 | filtering out an absent value changes nothing |
| Lists.RemoveAllAppend | src/components/training-plan/ConstraintsForm.tsx:39 | the filter distributes over concatenation |
| Lists.Toggle | src/components/training-plan/ConstraintsForm.tsx:36-43 | a present value is removed everywhere, an absent one appended at the end |
| Lists.ToggleTwice | src/components/training-plan/ConstraintsForm.tsx:36-43 | toggling an absent value twice restores the list exactly |
| Lists.DropIndex | src/components/training-plan/ConstraintsForm.tsx:54 | the index filter drops the element at that index, or nothing when out of range |
| Lists.RemoveAt | src/components/training-plan/ConstraintsForm.tsx:53-69 | the others keep their order; an out-of-range index changes nothing |
| EquipmentPreferences.InitialEquipment | src/components/training-plan/EquipmentPreferences.tsx:13-18 | exactly the four keys; an absent list becomes [], absent toggles take true, true, false, an explicit `false` is kept |
| EquipmentPreferences.InitialEquipmentIdempotent | src/components/training-plan/EquipmentPreferences.tsx:13-18 | defaults applied once |
| EquipmentPreferences.EquipmentMergeTouchesOnlyItsKeys | src/components/training-plan/EquipmentPreferences.tsx:33-35 | merging what the step hands on replaces exactly its four keys |
| EquipmentPreferences.CategoryItems | src/components/training-plan/EquipmentPreferences.tsx:37-41 | the checklist holds exactly the categories' items |
| EquipmentPreferences.CategoriesCoverEquipment | src/components/training-plan/EquipmentPreferences.tsx:37-41 | 8 distinct items, each equipment type exactly once |
| EquipmentPreferences.EquipmentEditor.constructor | src/components/training-plan/EquipmentPreferences.tsx:13-18 | the local form is the defaulted one |
| EquipmentPreferences.EquipmentEditor.ToggleEquipment | src/components/training-plan/EquipmentPreferences.tsx:20-27 | toggles the item and flips its checkbox, touching only the equipment list |
| EquipmentPreferences.EquipmentEditor.SetSafeOutdoorRoutes | src/components/training-plan/EquipmentPreferences.tsx:106 | sets that one field |
| EquipmentPreferences.EquipmentEditor.SetIncludeStrengthTraining | src/components/training-plan/EquipmentPreferences.tsx:137 | sets that one field |
| EquipmentPreferences.EquipmentEditor.SetIncludeCrossTraining | src/components/training-plan/EquipmentPreferences.tsx:161 | sets that one field |
| EquipmentPreferences.EquipmentEditor.Next | src/components/training-plan/EquipmentPreferences.tsx:33-35 | hands on exactly the four fields |
| RaceSelection.SafeRaces | src/components/training-plan/RaceSelectionStep.tsx:26 | a non-array is treated as empty |
| RaceSelection.Offered | src/components/training-plan/RaceSelectionStep.tsx:43-46 | offered iff the race is today or later |
| RaceSelection.UpcomingRaces | src/components/training-plan/RaceSelectionStep.tsx:42-51 | the races of today or later, ascending by date: a permutation of the filtered list, so each such race keeps every copy and no earlier race appears |
| RaceSelection.SortedMembers | src/components/training-plan/RaceSelectionStep.tsx:47-51 | sorting keeps the members |
| RaceSelection.StepScreen | src/components/training-plan/RaceSelectionStep.tsx:28-71 | loading wins; the no-races screen iff nothing is upcoming; otherwise the non-empty sorted offer |
| RaceSelection.NonArrayIsEmpty | src/components/training-plan/RaceSelectionStep.tsx:26-71 | a non-array list shows the no-races screen, like an empty one |
| RaceSelection.Badge | src/components/training-plan/RaceSelectionStep.tsx:116-122 | red iff ≤ 60 days, yellow iff 61..120, green above |
| RaceSelection.ShortPreparation | src/components/training-plan/RaceSelectionStep.tsx:125-129 | the note iff < 60 days |
| RaceSelection.BadgeMonotone | src/components/training-plan/RaceSelectionStep.tsx:116-129 | urgency never rises with distance; the note implies red; day 60 is red without the note |
| RaceSelection.RaceSelector.constructor | src/components/training-plan/RaceSelectionStep.tsx:17 | the selection starts from the prop |
| RaceSelection.RaceSelector.Select | src/components/training-plan/RaceSelectionStep.tsx:88-98 | selects `parseInt(race.id)`, which highlights the card when it parses |
| RaceSelection.RaceSelector.Next | src/components/training-plan/RaceSelectionStep.tsx:19-23 | hands on `{race_id}` iff the selection is truthy |
| RaceSelection.SelectAndContinue | src/components/training-plan/RaceSelectionStep.tsx:19-23 | a numeric id is handed on as the plan's race |
| GenerationProgress.ProgressAfter | src/components/training-plan/GenerationProgress.tsx:45-49 | min(95, elapsed/200), in 0..95 |
| GenerationProgress.ProgressAfterTicks | src/components/training-plan/GenerationProgress.tsx:45-49 | after n ticks the bar is min(95, n/2), non-decreasing |
| GenerationProgress.StepMessage | src/components/training-plan/GenerationProgress.tsx:11-19 | the step's message, "Processing..." out of range |
| GenerationProgress.Render | src/components/training-plan/GenerationProgress.tsx:64-129 | the retry screen iff an error is set; otherwise the step message and the rounded percentage |
| GenerationProgress.ProgressAnimation.constructor | src/components/training-plan/GenerationProgress.tsx:22-62 | generating starts the chain and the interval; not generating without error shows 100 and the last step |
| GenerationProgress.ProgressAnimation.SetProps | src/components/training-plan/GenerationProgress.tsx:25-62 | a start restarts the chain at 0; an end stops the interval; the bar completes only when `isGenerating` or `error` changed to not generating without error; a render with the same props changes nothing; when generation turns off with an error, the step and progress stay as they were |
| GenerationProgress.ProgressAnimation.AdvanceStep | src/components/training-plan/GenerationProgress.tsx:31-38 | one step further while below the last (6), then the chain stops |
| GenerationProgress.ProgressAnimation.Tick | src/components/training-plan/GenerationProgress.tsx:45-49 | 100 ms more elapsed; the bar follows `ProgressAfter`, ≤ 95, never decreasing |
| GenerationProgress.CompletionThenLateStep | src/components/training-plan/GenerationProgress.tsx:31-62 | a step timeout after completion moves the message back from the last step |
| GenerationProgress.RerenderKeepsLateStep | src/components/training-plan/GenerationProgress.tsx:56-62 | a re-render with unchanged props does not complete the bar again, so the late step stays shown |
| PlanTypes.Spread | src/types/training-plan.ts:167-181 | `{...base, ...update}`: for each of the 13 keys, the update's value when the key is present there, else the base's; spreading nothing, or onto nothing, copies the other side |
| PlanTypes.KeyByKeyTakesEachKey | src/types/training-plan.ts:167-181 | each of the 13 keys of the key-by-key assembly follows the spread rule |
| PlanTypes.KeyByKeyOfNoKeys | src/types/training-plan.ts:167-181 | the key-by-key assembly with an empty side is the other side |
| PlanTypes.Over | src/types/training-plan.ts:167-181 | one key of a spread |
| PlanTypes.SpreadIdempotent | src/types/training-plan.ts:167-181 | spreading the same data twice is spreading once |
| PlanTypes.SpreadAssociative | src/types/training-plan.ts:167-181 | spreading a then b is spreading `{...a, ...b}` |
| PlanTypes.ExperienceLevelsAreThree | src/types/training-plan.ts:1 | exactly three levels |
| PlanTypes.AllEquipmentIsEnumeration | src/types/training-plan.ts:17-25 | eight distinct equipment types, all listed |
| PlanTypes.EquipmentOptionsTotal | src/types/training-plan.ts:190-199 | every equipment type has a non-empty label |
| PlanTypes.DaysOfWeekDistinct | src/types/training-plan.ts:201-209 | seven distinct names, Monday first, Sunday last |
| PlanTypes.WorkoutTypeIconsTotal | src/types/training-plan.ts:211-222 | all ten workout types map to "" |
| PlanTypes.PhaseColorsTotal | src/types/training-plan.ts:224-231 | all six phases have a `#RRGGBB` colour |
| PlanTypes.PhaseNameInjective | src/types/training-plan.ts:3 | phase names are distinct |
| RaceTypes.ParseRaceType | src/types/race.ts:1-9 | a parsed name is that type's name |
| RaceTypes.RaceTypeName | src/types/race.ts:1-9 | a name starts with "Run - " iff the type is a running one, with "Triathlon - " iff a triathlon |
| RaceTypes.OtherPrefix | src/types/race.ts:1-9 | a text whose first character differs from a prefix does not start with it |
| RaceTypes.ParseRaceTypeName | src/types/race.ts:1-9 | every race type reads back from its name (eight distinct names) |
| RaceTypes.CategoriesPartitionRaceTypes | src/types/race.ts:36-49 | Running and Triathlon are disjoint, with 8 distinct types between them |
| RaceTypes.RaceTypeIcon | src/types/race.ts:51-60 | running types show the runner; exactly the triathlons show all three sports |
| RaceUtils.DaysUntilRace | src/lib/raceUtils.ts:3-10 | race day minus today: 0 today, negative exactly for past races |
| RaceUtils.WithCountdown | src/lib/raceUtils.ts:30-34 | the race copied; past iff the countdown is negative |
| RaceUtils.MapWithCountdown | src/lib/raceUtils.ts:30-34 | one countdown per race, in order |
| RaceUtils.AddCountdownToRaces | src/lib/raceUtils.ts:22-58 | falsy→[]; array→mapped; object with type and date→one race; `{races: array}`→mapped; else [] |
| RaceUtils.AddCountdownConsistent | src/lib/raceUtils.ts:29-53 | every race produced has a countdown consistent with today |
| RaceUtils.SortRacesByDate | src/lib/raceUtils.ts:60-66 | an ascending permutation |
| RaceUtils.UpcomingRaces | src/lib/raceUtils.ts:68-70 | the races not past, each kept with all its copies and no past race kept; the order is fixed by `UpcomingRacesAppend` |
| RaceUtils.UpcomingRacesAppend | src/lib/raceUtils.ts:68-70 | the filter keeps list order: the upcoming races of a concatenation are those of each part in turn, and a single race is kept exactly when it is not past |
| RaceUtils.NextRace | src/lib/raceUtils.ts:72-76 | none iff all are past; otherwise an earliest upcoming race |
| RaceUtils.NextRaceIsFirst | src/lib/raceUtils.ts:72-76 | on a shared earliest day the stable sort picks the first in list order: every upcoming race before it is later |
| RaceUtils.SortedUpcoming | src/lib/raceUtils.ts:72-76 | sorting the upcoming races keeps exactly those races and puts an earliest one first |
| RaceUtils.FormatCountdown | src/lib/raceUtils.ts:78-89 | "Today!" iff 0, "Tomorrow!" iff 1; "n day(s) ago" for the past (singular only at 1); "n days to go" otherwise |
| RaceUtils.FormatCountdownInjective | src/lib/raceUtils.ts:78-89 | different countdowns have different labels |
| RaceForm.ErrorsFor | src/components/races/RaceForm.tsx:28-46 | type error iff no type; date error for no date or a past date; today passes |
| RaceForm.TodayIsAccepted | src/components/races/RaceForm.tsx:35-45 | the picker starts tomorrow, yet today validates and yesterday does not |
| RaceForm.PickerMin | src/components/races/RaceForm.tsx:62-66 | the picker's minimum is after today and is the next day |
| RaceForm.RaceFormState.constructor | src/components/races/RaceForm.tsx:17-26 | editing prefills type and date; adding starts empty |
| RaceForm.RaceFormState.SetRaceType | src/components/races/RaceForm.tsx:93 | sets only the type |
| RaceForm.RaceFormState.SetRaceDate | src/components/races/RaceForm.tsx:127 | sets only the date |
| RaceForm.RaceFormState.ValidateForm | src/components/races/RaceForm.tsx:28-49 | replaces the whole error map; true iff it is empty, iff type set and date today or later |
| RaceForm.RaceFormState.HandleSubmit | src/components/races/RaceForm.tsx:51-60 | submits exactly (type, date), and only when valid |
| PhaseTimeline.ParseWeeksFromRange | src/components/training-plan/PhaseTimeline.tsx:6-12 | no '-' gives 1; "a-b" gives b − a + 1 from the first two pieces, NaN when either does not parse |
| PhaseTimeline.WeeksBetween | src/components/training-plan/PhaseTimeline.tsx:8-9 | a count only when both ends parse, then end − start + 1 |
| PhaseTimeline.DigitsAreTrimmed | src/components/training-plan/PhaseTimeline.tsx:8 | a digit string is its own trim |
| PhaseTimeline.SplitRange | src/components/training-plan/PhaseTimeline.tsx:8 | "a-b" splits into a and b |
| PhaseTimeline.RangeWeeks | src/components/training-plan/PhaseTimeline.tsx:6-12 | "a-b" counts b − a + 1 weeks |
| PhaseTimeline.PhaseNameOf | src/components/training-plan/PhaseTimeline.tsx:71 | `phase_name`, else `name` |
| PhaseTimeline.PhaseWeeksOf | src/components/training-plan/PhaseTimeline.tsx:72-74 | numeric weeks as is, text parsed as a range |
| PhaseTimeline.PhaseOfName | src/types/training-plan.ts:224-231 | the phase keyed by a name, none when no phase has it |
| PhaseTimeline.PhaseOfNameUnique | src/types/training-plan.ts:224-231 | a name belongs to at most one phase, and the lookup returns that phase |
| PhaseTimeline.ColourFor | src/components/training-plan/PhaseTimeline.tsx:83 | the colour of the lower-cased name, `#6B7280` when unknown |
| PhaseTimeline.LowerOfLowerCase | src/components/training-plan/PhaseTimeline.tsx:83 | lower case leaves a lower-case name alone |
| PhaseTimeline.ColourOfEachPhase | src/components/training-plan/PhaseTimeline.tsx:83 | each phase name, in any case, finds its colour |
| PhaseTimeline.PercentOf | src/components/training-plan/PhaseTimeline.tsx:82 | part/total·100, not finite when the total is 0 |
| PhaseTimeline.Blocks | src/components/training-plan/PhaseTimeline.tsx:69-110 | one block per phase with a name and non-zero weeks, in order, with its share and colour |
| PhaseTimeline.Cards | src/components/training-plan/PhaseTimeline.tsx:117-128 | one card per named phase, in order |
| PhaseTimeline.BlocksOfOne | src/components/training-plan/PhaseTimeline.tsx:77-80 | a phase gives its block iff it has a name and truthy weeks, otherwise nothing |
| PhaseTimeline.BlocksAppend | src/components/training-plan/PhaseTimeline.tsx:69-110 | the blocks of two lists joined are the blocks of each, in list order |
| PhaseTimeline.CardsOfOne | src/components/training-plan/PhaseTimeline.tsx:126-128 | a phase gives its card iff it has a name, otherwise nothing |
| PhaseTimeline.CardsAppend | src/components/training-plan/PhaseTimeline.tsx:117-128 | the cards of two lists joined are the cards of each, in list order |
| PhaseTimeline.BlocksWithinCards | src/components/training-plan/PhaseTimeline.tsx:77-126 | never more blocks than cards |
| PhaseTimeline.WidthSumIsShare | src/components/training-plan/PhaseTimeline.tsx:82 | the widths add up to the blocks' share of the plan |
| PhaseTimeline.FullRow | src/components/training-plan/PhaseTimeline.tsx:82 | when the blocks' weeks are the plan length the row is exactly 100% |
| PhaseTimeline.Render | src/components/training-plan/PhaseTimeline.tsx:20-65 | placeholder iff no phases; a marker iff the current week is truthy, at its percentage; then blocks and cards |
| ActivityIngestion.StartGuard | src/components/dashboard/ActivityIngestion.tsx:66-76 | no session gives the session error; a missing id or token names what is missing; otherwise one request with the `id \|\| stravaId` user |
| ActivityIngestion.StravaIdStandsIn | src/components/dashboard/ActivityIngestion.tsx:72 | a Strava id alone starts ingestion under that id |
| ActivityIngestion.ProgressPercentage | src/components/dashboard/ActivityIngestion.tsx:131-134 | 0 with no status or no activities; otherwise `Math.round(processed/total·100)`: within half a point of the processed share in percent |
| ActivityIngestion.ProgressBounds | src/components/dashboard/ActivityIngestion.tsx:131-134 | with a consistent count: in 0..100, monotone in the processed count, 100 at the end |
| ActivityIngestion.IngestionPanel.constructor | src/components/dashboard/ActivityIngestion.tsx:15-24 | mounted, idle, no interval |
| ActivityIngestion.IngestionPanel.StartIngestion | src/components/dashboard/ActivityIngestion.tsx:66-88 | performs the guard; on proceed: ingesting, no error, one request |
| ActivityIngestion.IngestionPanel.OnStartOk | src/components/dashboard/ActivityIngestion.tsx:90-124 | a fresh interval; stored while mounted, leaked (running, unstored) after unmount |
| ActivityIngestion.IngestionPanel.OnStartErr | src/components/dashboard/ActivityIngestion.tsx:125-128 | the message or its default, ingestion stops, no interval |
| ActivityIngestion.IngestionPanel.OnPollStatus | src/components/dashboard/ActivityIngestion.tsx:92-118 | the status is shown; a terminal status clears that interval and stops ingesting; only completed refreshes stats and calls back |
| ActivityIngestion.IngestionPanel.OnPollError | src/components/dashboard/ActivityIngestion.tsx:119-121 | a poll error is swallowed and the interval goes on |
| ActivityIngestion.IngestionPanel.Unmount | src/components/dashboard/ActivityIngestion.tsx:27-33 | clears the stored interval |
| ActivityIngestion.StartAnsweredAfterUnmount | src/components/dashboard/ActivityIngestion.tsx:90-124 | a start answered after unmount leaves an interval running |
| Sessions.UserIdOf | src/components/chat/ChatInterface.tsx:79 | `id \|\| stravaId?.toString()`: the id when truthy, else the Strava id as text, else absent (an empty id gives absent); truthy iff either is present |
| ChatInterface.CloseFrom | src/components/chat/ChatInterface.tsx:264 | the lazy `.*?` stops at the first `**` with no line terminator before it |
| ChatInterface.MatchAt | src/components/chat/ChatInterface.tsx:264 | a match opens and closes with `**` |
| ChatInterface.FirstMatch | src/components/chat/ChatInterface.tsx:264-265 | the leftmost match, none iff no position matches |
| ChatInterface.SplitBold | src/components/chat/ChatInterface.tsx:266 | an odd number of pieces that reassemble to the line |
| ChatInterface.SplitWithoutMatch | src/components/chat/ChatInterface.tsx:266 | no match gives one piece |
| ChatInterface.Reassemble | src/components/chat/ChatInterface.tsx:266 | a match splits the line into before, inner and after |
| ChatInterface.UnsplitCons | src/components/chat/ChatInterface.tsx:266 | reassembly of a longer split |
| ChatInterface.CloseFromSkips | src/components/chat/ChatInterface.tsx:264 | the lazy part skips text without asterisks to the next `**` |
| ChatInterface.ClassifyLine | src/components/chat/ChatInterface.tsx:252-302 | header, bold, bullet, callout, paragraph, break in that order, by the trimmed line, with the text each shows; the callout rule is never the one taken |
| ChatInterface.MarkerIsBold | src/components/chat/ChatInterface.tsx:264-288 | every callout marker is itself a bold match |
| ChatInterface.StarsAt | src/components/chat/ChatInterface.tsx:264 | two asterisks are a `**` |
| ChatInterface.CalloutTakesBoldBranch | src/components/chat/ChatInterface.tsx:263-294 | the callout rule is never reached: a callout line is a header or takes the bold rule |
| ChatInterface.CalloutIsBold | src/components/chat/ChatInterface.tsx:263-294 | a line holding a callout marker holds a bold match |
| ChatInterface.FormatMessageContent | src/components/chat/ChatInterface.tsx:247-304 | one classified line per line of the text |
| ChatInterface.RequestFor | src/components/chat/ChatInterface.tsx:107-111 | the conversation id is sent iff truthy |
| ChatInterface.SendGuardOf | src/components/chat/ChatInterface.tsx:76-83 | ignored without a user or with blank input; auth error without an id; otherwise sent under that id |
| ChatInterface.ChatPanel.constructor | src/components/chat/ChatInterface.tsx:76 | an empty conversation |
| ChatInterface.ChatPanel.Type | src/components/chat/ChatInterface.tsx:76 | sets only the input |
| ChatInterface.ChatPanel.SendMessage | src/components/chat/ChatInterface.tsx:76-111 | per the guard; on send: the message appended optimistically, input cleared, one request |
| ChatInterface.ChatPanel.Dispatch | src/components/chat/ChatInterface.tsx:77-104 | nothing when ignored; the auth error alone; or the message appended, the input cleared and one request sent |
| ChatInterface.ChatPanel.Submit | src/components/chat/ChatInterface.tsx:85-111 | appends the question and sends it with the conversation id when truthy |
| ChatInterface.ChatPanel.AskFollowUp | src/components/chat/ChatInterface.tsx:143-175 | nothing without a user id; otherwise like sending, input untouched |
| ChatInterface.ChatPanel.OnAnswer | src/components/chat/ChatInterface.tsx:113-131 | the answer appended, follow-ups replaced, the conversation id adopted only when none was sent |
| ChatInterface.ChatPanel.OnAskError | src/components/chat/ChatInterface.tsx:132-140 | the last message dropped; a typed text back in the input, a follow-up not |
| ChatInterface.ChatPanel.ClearHistory | src/components/chat/ChatInterface.tsx:203-210 | one clear request iff `session.user.id` is truthy, with the conversation id when truthy |
| ChatInterface.ChatPanel.OnClearOk | src/components/chat/ChatInterface.tsx:211-218 | messages, follow-ups, error and conversation id reset |
| ChatInterface.ChatPanel.OnClearErr | src/components/chat/ChatInterface.tsx:219-221 | only the error is set |
| ChatInterface.ChatPanel.StartNewChat | src/components/chat/ChatInterface.tsx:224-231 | a new conversation over the same messages |
| ChatInterface.FailedAsksRollBack | src/components/chat/ChatInterface.tsx:132-140 | a failed send restores the conversation and the input; a failed follow-up leaves the input empty |
| FitnessInsights.Classify | src/components/dashboard/FitnessInsights.tsx:54-77 | heading iff `^\d+\.`; bullet iff it starts with `•` or `-` (mark dropped, rest trimmed); otherwise a paragraph |
| FitnessInsights.FormatLine | src/components/dashboard/FitnessInsights.tsx:50-78 | null iff the line is blank; otherwise its trimmed text classified |
| FitnessInsights.FormatLines | src/components/dashboard/FitnessInsights.tsx:48-78 | one entry per line |
| FitnessInsights.Compact | src/components/dashboard/FitnessInsights.tsx:79 | `filter(Boolean)` never adds entries |
| FitnessInsights.ClassifyAll | src/components/dashboard/FitnessInsights.tsx:46-80 | the reference reading: one element per non-blank line |
| FitnessInsights.FormatLinesThenCompact | src/components/dashboard/FitnessInsights.tsx:48-79 | mapping then filtering is classifying the non-blank lines |
| FitnessInsights.FormatInsights | src/components/dashboard/FitnessInsights.tsx:46-80 | the rendered list is the non-blank lines classified, in order, one each |
| FitnessInsights.HeadingAndBulletExclusive | src/components/dashboard/FitnessInsights.tsx:55-64 | the heading and bullet tests never both hold |
| FitnessInsights.MinusNumberIsBullet | src/components/dashboard/FitnessInsights.tsx:55-70 | "-3. Rest day" becomes a bullet "3. Rest day" |
| FitnessInsights.MarkedLineIsBullet | src/components/dashboard/FitnessInsights.tsx:55-70 | a line opening with a bullet mark, not padded, becomes a bullet of the rest |
| FitnessInsights.Render | src/components/dashboard/FitnessInsights.tsx:117-138 | spinner iff loading; the formatted text iff not loading and text present |
| FitnessInsights.InsightsPanel.constructor | src/components/dashboard/FitnessInsights.tsx:11-14 | no insights, month, not loading |
| FitnessInsights.InsightsPanel.LoadInsights | src/components/dashboard/FitnessInsights.tsx:16-32 | nothing without a user; auth error without an id; otherwise loading and one request for the period |
| FitnessInsights.InsightsPanel.SelectPeriod | src/components/dashboard/FitnessInsights.tsx:42-44 | a different period reloads for it, the same period changes nothing |
| FitnessInsights.InsightsPanel.OnInsightsOk | src/components/dashboard/FitnessInsights.tsx:34-38 | the text stored, loading ends |
| FitnessInsights.InsightsPanel.OnInsightsErr | src/components/dashboard/FitnessInsights.tsx:35-38 | the message or its default; old insights kept |
| DeleteDataButton.NearMissesRejected | src/components/dashboard/DeleteDataButton.tsx:62 | only the exact word enables the button, never while deleting |
| DeleteDataButton.DeleteModal.constructor | src/components/dashboard/DeleteDataButton.tsx:15-18 | closed, empty, not deleting |
| DeleteDataButton.DeleteModal.OpenModal | src/components/dashboard/DeleteDataButton.tsx:20-24 | open with empty text and no error |
| DeleteDataButton.DeleteModal.CloseModal | src/components/dashboard/DeleteDataButton.tsx:26-32 | ignored while deleting; otherwise closed and reset |
| DeleteDataButton.DeleteModal.TypeConfirm | src/components/dashboard/DeleteDataButton.tsx:121-127 | sets the text |
| DeleteDataButton.DeleteModal.ConfirmDelete | src/components/dashboard/DeleteDataButton.tsx:34-43 | nothing unless `user.id` is truthy and the text is exactly DELETE; then deleting and one request |
| DeleteDataButton.DeleteModal.OnDeleteOk | src/components/dashboard/DeleteDataButton.tsx:46-52 | storage cleared, sign-out started |
| DeleteDataButton.DeleteModal.OnSignOutOk | src/components/dashboard/DeleteDataButton.tsx:52-53 | redirected to `/login?deleted=true` |
| DeleteDataButton.DeleteModal.OnFailure | src/components/dashboard/DeleteDataButton.tsx:55-59 | the message or its default; deleting ends, modal stays open |
| DeleteDataButton.StravaOnlyUserCannotDelete | src/components/dashboard/DeleteDataButton.tsx:35 | a user known only by a Strava id sends no deletion |
| TssHeatmap.Dates | src/components/dashboard/TSSHeatmapCalendar.tsx:28-33 | the grouped dates are distinct |
| TssHeatmap.DatesAreTheItemDates | src/components/dashboard/TSSHeatmapCalendar.tsx:28-33 | a date is grouped iff some item carries it |
| TssHeatmap.GroupTssByDate | src/components/dashboard/TSSHeatmapCalendar.tsx:25-36 | one entry per carried date, holding that date's total; undated items skipped |
| TssHeatmap.TotalOnUndated | src/components/dashboard/TSSHeatmapCalendar.tsx:31 | a date no item carries totals zero |
| TssHeatmap.SumOverSnocItem | src/components/dashboard/TSSHeatmapCalendar.tsx:31 | a new item adds its value to its date's total |
| TssHeatmap.SumOverSnocDate | src/components/dashboard/TSSHeatmapCalendar.tsx:31 | summing over one more date adds its total |
| TssHeatmap.GroupedTotalsAddUp | src/components/dashboard/TSSHeatmapCalendar.tsx:25-36 | the per-date totals add up to the total of all dated items |
| TssHeatmap.CountAtMost | src/components/dashboard/TSSHeatmapCalendar.tsx:41-60 | at most the number of bounds |
| TssHeatmap.Band | src/components/dashboard/TSSHeatmapCalendar.tsx:41-60 | a band index in range |
| TssHeatmap.CountOfBounds | src/components/dashboard/TSSHeatmapCalendar.tsx:43-48 | the bound count by the thresholds 50, 100, 150, 200, 300 |
| TssHeatmap.TssColor | src/components/dashboard/TSSHeatmapCalendar.tsx:41-49 | the colour of the total's band |
| TssHeatmap.IntensityLabel | src/components/dashboard/TSSHeatmapCalendar.tsx:52-60 | the label of the total's band |
| TssHeatmap.ChainsFollowBand | src/components/dashboard/TSSHeatmapCalendar.tsx:41-60 | colour and label are the entries of the reference band |
| TssHeatmap.ColourMatchesLabel | src/components/dashboard/TSSHeatmapCalendar.tsx:41-60 | same colour iff same label; a negative total is "Easy" |
| TssHeatmap.CountAtMostMonotone | src/components/dashboard/TSSHeatmapCalendar.tsx:43-48 | the bound count grows with the total |
| TssHeatmap.BandMonotone | src/components/dashboard/TSSHeatmapCalendar.tsx:41-60 | above zero a larger total is never in a lower band |
| TssHeatmap.LegendShowsEveryBand | src/components/dashboard/TSSHeatmapCalendar.tsx:203-221 | the captions are the band labels in order, and each label titles some legend square |
| TssHeatmap.Weekday | src/components/dashboard/TSSHeatmapCalendar.tsx:67 | `getDay` is in 0..6 |
| TssHeatmap.FullYear | src/components/dashboard/TSSHeatmapCalendar.tsx:64-65 | never a year 0 to 99; same last two digits; any other year is kept |
| TssHeatmap.TssOn | src/components/dashboard/TSSHeatmapCalendar.tsx:74 | the grouped total of the day, 0 when absent; never negative when no total is |
| TssHeatmap.SundayOnOrBefore | src/components/dashboard/TSSHeatmapCalendar.tsx:66-67 | stepping back by the weekday lands on a Sunday at most six days earlier |
| TssHeatmap.GenerateCalendarDays | src/components/dashboard/TSSHeatmapCalendar.tsx:63-90 | 42 consecutive days from the Sunday on or before the 1st; each with its total (0 when absent), in-month flag and day of month |
| TssHeatmap.CountAtTwoIndices | src/components/dashboard/TSSHeatmapCalendar.tsx:96-103 | equal entries at two indices count twice |
| TssHeatmap.DistinctByCount | src/components/dashboard/TSSHeatmapCalendar.tsx:96-103 | entries counted once are distinct |
| TssHeatmap.CountOfDistinct | src/components/dashboard/TSSHeatmapCalendar.tsx:96-103 | distinct entries are counted once |
| TssHeatmap.GetAvailableYears | src/components/dashboard/TSSHeatmapCalendar.tsx:95-104 | exactly the years of the dated items, strictly newest first |
| TssHeatmap.MonthMax | src/components/dashboard/TSSHeatmapCalendar.tsx:255 | none iff no day is in the month; otherwise an in-month total bounding all others |
| TssHeatmap.ActiveDays | src/components/dashboard/TSSHeatmapCalendar.tsx:229 | at most the number of days; 0 iff no in-month day has stress |
| TssHeatmap.MonthTotalNonNegative | src/components/dashboard/TSSHeatmapCalendar.tsx:236-238 | with no negative day the month's total is not negative |
| TssHeatmap.MonthTotalOutsideMonth | src/components/dashboard/TSSHeatmapCalendar.tsx:236-238 | days outside the month add nothing |
| TssHeatmap.MonthAverage | src/components/dashboard/TSSHeatmapCalendar.tsx:245-249 | with a divisor of 1 it is the total; not negative when no total is |
| TssHeatmap.TotalAtMostCapacity | src/components/dashboard/TSSHeatmapCalendar.tsx:236-238 | the total is at most `m` per active day when every in-month total is at most `m` |
| TssHeatmap.CapacityIsActiveTimesMax | src/components/dashboard/TSSHeatmapCalendar.tsx:229 | `m` per active day sums to `Times(active days, m)` |
| TssHeatmap.TimesIsProduct | src/components/dashboard/TSSHeatmapCalendar.tsx:245-249 | `n` copies of `m` added up are `n · m` |
| TssHeatmap.TotalAtMostActiveTimesMax | src/components/dashboard/TSSHeatmapCalendar.tsx:236-255 | the month total is at most the maximum added once per active day (`Times`, the product by `TimesIsProduct`) |
| TssHeatmap.Divisor | src/components/dashboard/TSSHeatmapCalendar.tsx:248 | `Math.max(1, active days)` is at least 1 |
| TssHeatmap.QuotientAtMost | src/components/dashboard/TSSHeatmapCalendar.tsx:245-249 | a total bounded by active·max over a divisor at least the active days is at most the max |
| TssHeatmap.NoActiveDayNoTotal | src/components/dashboard/TSSHeatmapCalendar.tsx:229-239 | no active day means a zero total (no negative totals) |
| TssHeatmap.QuietMonthAveragesZero | src/components/dashboard/TSSHeatmapCalendar.tsx:245-249 | a month without active days averages 0 |
| TssHeatmap.AverageAtMostMax | src/components/dashboard/TSSHeatmapCalendar.tsx:245-255 | the average never exceeds the maximum |
| TssHeatmap.AverageAtMostBound | src/components/dashboard/TSSHeatmapCalendar.tsx:245-249 | with no negative totals, any bound on the in-month totals bounds the average |
| FitnessMetricsChart.Since | src/components/dashboard/FitnessMetricsChart.tsx:34-37 | exactly the metrics not before the cutoff, from the input |
| FitnessMetricsChart.RangeDays | src/components/dashboard/FitnessMetricsChart.tsx:23-30 | `parseInt` of the selector value: 30, 90 or 365 |
| FitnessMetricsChart.Cutoff | src/components/dashboard/FitnessMetricsChart.tsx:31-32 | the cutoff plus the days is now; it lies within the day that many days back |
| FitnessMetricsChart.FilteredData | src/components/dashboard/FitnessMetricsChart.tsx:27-38 | all time gives the input; otherwise the window since the cutoff |
| FitnessMetricsChart.SinceAppend | src/components/dashboard/FitnessMetricsChart.tsx:34-37 | the window keeps order |
| FitnessMetricsChart.CutoffInDays | src/components/dashboard/FitnessMetricsChart.tsx:31-36 | the day exactly N back is kept only at midnight; later days always, earlier never |
| FitnessMetricsChart.SinceNested | src/components/dashboard/FitnessMetricsChart.tsx:34-37 | a later cutoff after an earlier one is the later alone |
| FitnessMetricsChart.WindowsNest | src/components/dashboard/FitnessMetricsChart.tsx:23-38 | 30 days lie inside 90, inside 365, inside all |
| FitnessMetricsChart.CountNotAbove | src/components/dashboard/FitnessMetricsChart.tsx:65-71 | at most the number of bounds |
| FitnessMetricsChart.Strain | src/components/dashboard/FitnessMetricsChart.tsx:65-71 | a band index in range |
| FitnessMetricsChart.StrainByBounds | src/components/dashboard/FitnessMetricsChart.tsx:66-70 | the band by the thresholds 25, 5, −10, −30 |
| FitnessMetricsChart.TsbColorByStrain | src/components/dashboard/FitnessMetricsChart.tsx:65-71 | each balance gets its band's colour; a lower balance is never less strained |
| FitnessMetricsChart.Lookup | src/components/dashboard/FitnessMetricsChart.tsx:61 | the entry for a name, none iff the table lacks it |
| FitnessMetricsChart.TsbColor | src/components/dashboard/FitnessMetricsChart.tsx:65-71 | the colour of the balance's band |
| FitnessMetricsChart.FormatTooltip | src/components/dashboard/FitnessMetricsChart.tsx:49-62 | a known series uses its formatter, any other name the plain value |
| FitnessMetricsChart.FormatterNamesDistinct | src/components/dashboard/FitnessMetricsChart.tsx:50-59 | each series name has one formatter |
| FitnessMetricsChart.LoadTooltip | src/components/dashboard/FitnessMetricsChart.tsx:51-61 | `formatTooltip(value, "ctl")` shows one decimal and CTL |
| FitnessMetricsChart.StressTooltip | src/components/dashboard/FitnessMetricsChart.tsx:56-61 | `formatTooltip(value, "running_tss")` shows a whole number and TSS |
| FitnessMetricsChart.UnknownTooltip | src/components/dashboard/FitnessMetricsChart.tsx:61 | a name outside the table shows the plain value |
| FitnessMetricsChart.DisplayNamesShowPlain | src/components/dashboard/FitnessMetricsChart.tsx:49-275 | none of the series' display names ("CTL (Fitness)" … "Other TSS") is a formatter key: called with one, the tooltip is the plain value |
| Strava.JsRem | src/lib/strava.ts:33 | `%` keeps the dividend's sign |
| Strava.TimeParts | src/lib/strava.ts:32-33 | for s ≥ 0 minutes in 0..59 and hours·3600 + minutes·60 within a minute of s; negative hours for s < 0 |
| Strava.FormatTimeRoundTrip | src/lib/strava.ts:31-39 | the label reads back as hours and minutes, which make up the whole minutes; the hour part iff s ≥ 3600 |
| Strava.FormatTime | src/lib/strava.ts:31-39 | for s ≥ 0 the label reads back as the hours and minutes of s |
| Strava.DurationLabelReadsBack | src/lib/strava.ts:35-38 | an "Hh Mm" or "Mm" label reads back as its hours and minutes |
| Strava.HoursLabelReadsBack | src/lib/strava.ts:36 | an "Hh Mm" label reads back as its hours and minutes |
| Strava.NoHourMark | src/lib/strava.ts:38 | a minutes-only label has no hour mark |
| Strava.NegativeDuration | src/lib/strava.ts:31-39 | −30 s shows "-1m", −3600 s shows "0m" |
| Strava.FormatElevationReadsBack | src/lib/strava.ts:46-48 | the label reads back as the rounded metres, within half a metre |
| Strava.FormatElevation | src/lib/strava.ts:46-48 | the label reads back as the rounded metres followed by " m" |

## Left out

- PlanUtils.GroupWorkoutsBySport: rows are stated in insertion order. JavaScript lists integer-like object keys first, in ascending order, and a sport named like a number is not modelled.
- Network, storage and I/O:
  - every service call is an event whose answer is a method argument;
  - `localStorage`/`sessionStorage` clearing and the router are flags;
  - chat-history loading (`loadChatHistory`) and its restore are not part of this model.
- Concurrency of answers: each panel has at most one request of a kind awaiting its answer, as its disabled controls allow. Overlapping requests and answers arriving out of order are not modelled.
- Time zones:
  - every date is its UTC midnight;
  - the calendar's `toISOString` key is taken to be the local date, and the year of an activity date is taken in UTC;
  - the metric window's local `setDate` (and daylight-saving shifts) is modelled as whole days plus the time of day.
- Floating point:
  - numbers are exact;
  - `toFixed` and the JavaScript number-to-string of tooltips and summaries are left out;
  - `parseFloat`/`parseInt` NaN inputs from the number fields, hexadecimal or signed `parseInt` forms, fractional seconds in durations, and activity dates with a time part are left out.
- `toLowerCase` beyond ASCII letters is left out.
- Lookups of inherited object keys (such as `formatters["constructor"]` or `PHASE_COLORS["constructor"]`) are left out; such names are treated as absent.
- TssHeatmap.DaysFromCivil, TssHeatmap.CivilFromDays: the Gregorian conversions are taken as the standard days-from-civil algorithm, without a round-trip proof.
- GenerationProgress: `onRetry` is a parent callback and is not modelled. Overlapping animation chains from a quick stop and restart are not modelled.
- TrainingPlanForm:
  - a change of `onClose` identity re-running the Escape effect is not modelled;
  - the wait for the cancel call before `onClose` is not ordered;
  - `getUserRaces` and the race query are not part of this model.
- FitnessInsights: the reload of the effect on a session-id change is not modelled; `LoadInsights` takes the session as given.
- DeleteDataButton.DeleteModal.OpenModal: the delete button behind the modal stays reachable by keyboard, so opening is allowed during a deletion and resets the text; nothing else about focus is modelled.
- PhaseTimeline: a `null` phase entry (which throws on `phase.phase_name`) is not modelled.
- ActivityIngestion: the user-stats and config fetches on mount are only counted (`statsRefreshes`), their results not modelled.
- FitnessMetricsChart: which name the chart library passes to the tooltip formatter (the series' `name` prop or its `dataKey`) is library behaviour and is not part of this model. The tooltip facts are about `formatTooltip` called with a given name.
- Strava: `formatDistance`, `formatDate` and the `StravaAPI` class are not part of this model.
