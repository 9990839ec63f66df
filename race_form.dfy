/**
  The add/edit race form: a race type and a date, validated before the
  form is handed on. Dates are day numbers; today is a parameter.
*/
module RaceForm {
  import opened Wrappers
  import opened RaceTypes

  const TypeMissing := "Please select a race type"
  const DateMissing := "Please select a race date"
  const DateInPast := "Race date cannot be in the past"

  /** The error map: one optional message per field. */
  datatype FormErrors = FormErrors(raceType: Option<string>, raceDate: Option<string>)

  const NoErrors := FormErrors(None, None)

  /** The errors `validateForm` finds for these values. */
  function ErrorsFor(raceType: Option<RaceType>, raceDate: Option<int>, today: int): (e: FormErrors)
    ensures e.raceType.Some? <==> raceType.None?
    ensures e.raceType.Some? ==> e.raceType.value == TypeMissing
    ensures raceDate.None? ==> e.raceDate == Some(DateMissing)
    ensures raceDate.Some? && raceDate.value < today ==> e.raceDate == Some(DateInPast)
    ensures raceDate.Some? && raceDate.value >= today ==> e.raceDate.None?
  {
    FormErrors(
      if raceType.None? then Some(TypeMissing) else None,
      if raceDate.None? then Some(DateMissing)
      else if raceDate.value < today then Some(DateInPast)
      else None)
  }

  /** The date picker's minimum: tomorrow, the earliest day after today. */
  function PickerMin(today: int): (m: int)
    ensures today < m
    ensures m - 1 <= today
  {
    today + 1
  }

  /** The picker offers tomorrow onwards, yet a typed-in date of today
      passes validation; yesterday does not. */
  lemma TodayIsAccepted(t: RaceType, today: int)
    ensures today < PickerMin(today)
    ensures ErrorsFor(Some(t), Some(today), today) == NoErrors
    ensures ErrorsFor(Some(t), Some(today - 1), today) == NoErrors.(raceDate := Some(DateInPast))
  {
  }

  class RaceFormState {
    /** `''` is `None`. */
    var raceType: Option<RaceType>
    var raceDate: Option<int>
    var errors: FormErrors

    /** Editing prefills type and date from the race; adding starts empty. */
    constructor(race: Option<Race>)
      ensures race.Some? ==> raceType == Some(race.value.raceType) && raceDate == Some(race.value.raceDate)
      ensures race.None? ==> raceType.None? && raceDate.None?
      ensures errors == NoErrors
    {
      if race.Some? {
        raceType := Some(race.value.raceType);
        raceDate := Some(race.value.raceDate);
      } else {
        raceType := None;
        raceDate := None;
      }
      errors := NoErrors;
    }

    method SetRaceType(t: Option<RaceType>)
      modifies this
      ensures raceType == t && raceDate == old(raceDate) && errors == old(errors)
    {
      raceType := t;
    }

    method SetRaceDate(d: Option<int>)
      modifies this
      ensures raceDate == d && raceType == old(raceType) && errors == old(errors)
    {
      raceDate := d;
    }

    /** `validateForm`: replaces the whole error map and reports whether it
        is empty. */
    method ValidateForm(today: int) returns (ok: bool)
      modifies this
      ensures errors == ErrorsFor(raceType, raceDate, today)
      ensures raceType == old(raceType) && raceDate == old(raceDate)
      ensures ok <==> errors == NoErrors
      ensures ok <==> raceType.Some? && raceDate.Some? && raceDate.value >= today
    {
      var newErrors := NoErrors;
      if raceType.None? {
        newErrors := newErrors.(raceType := Some(TypeMissing));
      }
      if raceDate.None? {
        newErrors := newErrors.(raceDate := Some(DateMissing));
      } else if raceDate.value < today {
        newErrors := newErrors.(raceDate := Some(DateInPast));
      }
      errors := newErrors;
      ok := newErrors == NoErrors;
    }

    /** `handleSubmit`: hands on exactly the type and the date, and only
        when the form is valid. */
    method HandleSubmit(today: int) returns (submitted: Option<(RaceType, int)>)
      modifies this
      ensures errors == ErrorsFor(raceType, raceDate, today)
      ensures raceType == old(raceType) && raceDate == old(raceDate)
      ensures submitted.Some? <==> errors == NoErrors
      ensures submitted.Some? ==> submitted.value == (raceType.value, raceDate.value)
    {
      var valid := ValidateForm(today);
      if valid && raceType.Some? {
        submitted := Some((raceType.value, raceDate.value));
      } else {
        submitted := None;
      }
    }
  }
}
