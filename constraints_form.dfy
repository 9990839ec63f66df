/**
  The constraints step of the wizard: a local copy of the constraint
  fields with defaults, day toggles, disruption and injury lists edited
  through drafts, and the hand-off of the whole local form.
*/
module ConstraintsForm {
  import opened Wrappers
  import opened Text
  import opened Lists
  import opened PlanTypes

  /** Exactly the eight constraint keys are present. */
  predicate ConstraintKeysOnly(f: PartialForm) {
    f.daysPerWeek.Some? && f.maxHoursPerWeek.Some? && f.yearsExperience.Some?
    && f.preferredTrainingDays.Some? && f.preferredRestDays.Some? && f.preferredTrainingTime.Some?
    && f.upcomingDisruptions.Some? && f.injuryLimitations.Some?
    && f.raceId.None? && f.availableEquipment.None? && f.safeOutdoorRoutes.None?
    && f.includeStrengthTraining.None? && f.includeCrossTraining.None?
  }

  /**
    The local form the step starts from: each incoming field when it is
    truthy, otherwise its default (4 days, 6 hours, intermediate, no
    preferred days, Sunday as rest day, no disruptions, no injuries).
    Arrays are always truthy, so an incoming empty list is kept; the
    training time is copied as it is.
  */
  function InitialConstraints(data: PartialForm): (f: PartialForm)
    ensures ConstraintKeysOnly(f)
    ensures f.daysPerWeek == (if Truthy(data.daysPerWeek) then data.daysPerWeek else Some(4))
    ensures f.maxHoursPerWeek == (if RealTruthy(data.maxHoursPerWeek) then data.maxHoursPerWeek else Some(6.0))
    ensures f.yearsExperience == Some(data.yearsExperience.GetOr(Intermediate))
    ensures f.preferredTrainingDays == Some(data.preferredTrainingDays.GetOr([]))
    ensures f.preferredRestDays == Some(data.preferredRestDays.GetOr(["Sunday"]))
    ensures f.preferredTrainingTime == Some(TrainingTimeOf(data))
    ensures f.upcomingDisruptions == Some(data.upcomingDisruptions.GetOr([]))
    ensures f.injuryLimitations == Some(data.injuryLimitations.GetOr([]))
  {
    NoKeys.(
      daysPerWeek := if Truthy(data.daysPerWeek) then data.daysPerWeek else Some(4),
      maxHoursPerWeek := if RealTruthy(data.maxHoursPerWeek) then data.maxHoursPerWeek else Some(6.0),
      yearsExperience := Some(data.yearsExperience.GetOr(Intermediate)),
      preferredTrainingDays := Some(data.preferredTrainingDays.GetOr([])),
      preferredRestDays := Some(data.preferredRestDays.GetOr(["Sunday"])),
      preferredTrainingTime := Some(TrainingTimeOf(data)),
      upcomingDisruptions := Some(data.upcomingDisruptions.GetOr([])),
      injuryLimitations := Some(data.injuryLimitations.GetOr([])))
  }

  /** Coming back to the step with what it handed on shows the same form:
      defaults are applied once. */
  lemma InitialConstraintsIdempotent(data: PartialForm)
    ensures InitialConstraints(InitialConstraints(data)) == InitialConstraints(data)
  {
  }

  /** Explicit values survive the defaults, even an empty rest-day list. */
  lemma InitialConstraintsKeepsChoices(data: PartialForm)
    requires Truthy(data.daysPerWeek) && RealTruthy(data.maxHoursPerWeek)
    requires data.yearsExperience.Some? && data.preferredRestDays == Some([])
    ensures InitialConstraints(data).daysPerWeek == data.daysPerWeek
    ensures InitialConstraints(data).maxHoursPerWeek == data.maxHoursPerWeek
    ensures InitialConstraints(data).yearsExperience == data.yearsExperience
    ensures InitialConstraints(data).preferredRestDays == Some([])
  {
  }

  /** The empty disruption draft. */
  const EmptyDraft := Disruption(None, None, "")

  /** Which day list a toggle edits. */
  datatype DayList = TrainingDays | RestDays

  class ConstraintsEditor {
    var formData: PartialForm
    var newDisruption: Disruption
    var newInjury: string

    predicate Valid()
      reads this
    {
      ConstraintKeysOnly(formData)
    }

    constructor(data: PartialForm)
      ensures Valid()
      ensures formData == InitialConstraints(data)
      ensures newDisruption == EmptyDraft && newInjury == ""
    {
      formData := InitialConstraints(data);
      newDisruption := EmptyDraft;
      newInjury := "";
    }

    // `handleInputChange`, one method per field it is used with.

    method SetDaysPerWeek(days: int)
      requires Valid()
      modifies this
      ensures Valid()
      ensures formData == old(formData).(daysPerWeek := Some(days))
      ensures newDisruption == old(newDisruption) && newInjury == old(newInjury)
    {
      formData := formData.(daysPerWeek := Some(days));
    }

    method SetMaxHoursPerWeek(hours: real)
      requires Valid()
      modifies this
      ensures Valid()
      ensures formData == old(formData).(maxHoursPerWeek := Some(hours))
      ensures newDisruption == old(newDisruption) && newInjury == old(newInjury)
    {
      formData := formData.(maxHoursPerWeek := Some(hours));
    }

    method SetExperience(level: ExperienceLevel)
      requires Valid()
      modifies this
      ensures Valid()
      ensures formData == old(formData).(yearsExperience := Some(level))
      ensures newDisruption == old(newDisruption) && newInjury == old(newInjury)
    {
      formData := formData.(yearsExperience := Some(level));
    }

    /** The time select: its empty option stores `undefined`. */
    method SetTrainingTime(time: Option<TrainingTime>)
      requires Valid()
      modifies this
      ensures Valid()
      ensures formData == old(formData).(preferredTrainingTime := Some(time))
      ensures newDisruption == old(newDisruption) && newInjury == old(newInjury)
    {
      formData := formData.(preferredTrainingTime := Some(time));
    }

    /** `handleDayToggle`: a chosen day is removed, another is appended. */
    method ToggleDay(day: string, list: DayList)
      requires Valid()
      modifies this
      ensures Valid()
      ensures list.TrainingDays? ==>
        formData == old(formData).(preferredTrainingDays := Some(Toggle(old(formData).preferredTrainingDays.value, day)))
      ensures list.RestDays? ==>
        formData == old(formData).(preferredRestDays := Some(Toggle(old(formData).preferredRestDays.value, day)))
      ensures newDisruption == old(newDisruption) && newInjury == old(newInjury)
    {
      if list.TrainingDays? {
        var current := formData.preferredTrainingDays.GetOr([]);
        var updated := if day in current then RemoveAll(current, day) else current + [day];
        formData := formData.(preferredTrainingDays := Some(updated));
      } else {
        var current := formData.preferredRestDays.GetOr([]);
        var updated := if day in current then RemoveAll(current, day) else current + [day];
        formData := formData.(preferredRestDays := Some(updated));
      }
    }

    method SetDraftStart(date: Option<int>)
      modifies this
      ensures newDisruption == old(newDisruption).(startDate := date)
      ensures formData == old(formData) && newInjury == old(newInjury)
    {
      newDisruption := newDisruption.(startDate := date);
    }

    method SetDraftEnd(date: Option<int>)
      modifies this
      ensures newDisruption == old(newDisruption).(endDate := date)
      ensures formData == old(formData) && newInjury == old(newInjury)
    {
      newDisruption := newDisruption.(endDate := date);
    }

    method SetDraftDescription(text: string)
      modifies this
      ensures newDisruption == old(newDisruption).(description := text)
      ensures formData == old(formData) && newInjury == old(newInjury)
    {
      newDisruption := newDisruption.(description := text);
    }

    /** `addDisruption`: appends a complete draft and clears it; an
        incomplete draft changes nothing. Date order is not checked here. */
    method AddDisruption()
      requires Valid()
      modifies this
      ensures Valid() && newInjury == old(newInjury)
      ensures DisruptionComplete(old(newDisruption)) ==>
        formData == old(formData).(upcomingDisruptions := Some(old(formData).upcomingDisruptions.value + [old(newDisruption)]))
        && newDisruption == EmptyDraft
      ensures !DisruptionComplete(old(newDisruption)) ==>
        formData == old(formData) && newDisruption == old(newDisruption)
    {
      if newDisruption.startDate.Some? && newDisruption.endDate.Some? && newDisruption.description != "" {
        var disruptions := formData.upcomingDisruptions.GetOr([]) + [newDisruption];
        formData := formData.(upcomingDisruptions := Some(disruptions));
        newDisruption := EmptyDraft;
      }
    }

    /** `removeDisruption`: drops the disruption at `index`. */
    method RemoveDisruption(index: int)
      requires Valid()
      modifies this
      ensures Valid()
      ensures formData == old(formData).(upcomingDisruptions := Some(RemoveAt(old(formData).upcomingDisruptions.value, index)))
      ensures newDisruption == old(newDisruption) && newInjury == old(newInjury)
    {
      var disruptions := RemoveAt(formData.upcomingDisruptions.GetOr([]), index);
      formData := formData.(upcomingDisruptions := Some(disruptions));
    }

    method SetNewInjury(text: string)
      modifies this
      ensures newInjury == text
      ensures formData == old(formData) && newDisruption == old(newDisruption)
    {
      newInjury := text;
    }

    /** `addInjury`: appends the trimmed draft unless it is blank, then
        clears the draft; a blank draft changes nothing. */
    method AddInjury()
      requires Valid()
      modifies this
      ensures Valid() && newDisruption == old(newDisruption)
      ensures !IsBlank(old(newInjury)) ==>
        formData == old(formData).(injuryLimitations := Some(old(formData).injuryLimitations.value + [Trim(old(newInjury))]))
        && newInjury == ""
      ensures IsBlank(old(newInjury)) ==> formData == old(formData) && newInjury == old(newInjury)
    {
      if Trim(newInjury) != "" {
        var injuries := formData.injuryLimitations.GetOr([]) + [Trim(newInjury)];
        formData := formData.(injuryLimitations := Some(injuries));
        newInjury := "";
      }
    }

    /** `removeInjury`: drops the injury at `index`. */
    method RemoveInjury(index: int)
      requires Valid()
      modifies this
      ensures Valid()
      ensures formData == old(formData).(injuryLimitations := Some(RemoveAt(old(formData).injuryLimitations.value, index)))
      ensures newDisruption == old(newDisruption) && newInjury == old(newInjury)
    {
      var injuries := RemoveAt(formData.injuryLimitations.GetOr([]), index);
      formData := formData.(injuryLimitations := Some(injuries));
    }

    /** `handleNext`: hands on the whole local form. */
    method Next() returns (emitted: PartialForm)
      requires Valid()
      ensures emitted == formData && ConstraintKeysOnly(emitted)
    {
      emitted := formData;
    }
  }

  /** An added injury is never blank and is already trimmed. */
  lemma AddedInjuryIsClean(text: string)
    requires !IsBlank(text)
    ensures !IsBlank(Trim(text)) && Trim(Trim(text)) == Trim(text)
  {
    TrimIdempotent(text);
  }
}
