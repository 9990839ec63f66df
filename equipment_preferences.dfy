/**
  The equipment step of the wizard: the equipment checklist grouped in
  three categories and the three preference toggles, with their defaults.
*/
module EquipmentPreferences {
  import opened Wrappers
  import opened Lists
  import opened PlanTypes

  /** Exactly the four keys of this step are present. */
  predicate EquipmentKeysOnly(f: PartialForm) {
    f.availableEquipment.Some? && f.safeOutdoorRoutes.Some?
    && f.includeStrengthTraining.Some? && f.includeCrossTraining.Some?
    && f.raceId.None? && f.daysPerWeek.None? && f.maxHoursPerWeek.None?
    && f.yearsExperience.None? && f.preferredTrainingDays.None? && f.preferredRestDays.None?
    && f.preferredTrainingTime.None? && f.upcomingDisruptions.None? && f.injuryLimitations.None?
  }

  /**
    The local form the step starts from. The list defaults with `||` (an
    array is always truthy, so only an absent one is replaced), the
    toggles with `??`: only an absent toggle takes its default, so an
    explicit `false` is kept.
  */
  function InitialEquipment(data: PartialForm): (f: PartialForm)
    ensures EquipmentKeysOnly(f)
    ensures f.availableEquipment == Some(data.availableEquipment.GetOr([]))
    ensures data.safeOutdoorRoutes.Some? ==> f.safeOutdoorRoutes == data.safeOutdoorRoutes
    ensures data.includeStrengthTraining.Some? ==> f.includeStrengthTraining == data.includeStrengthTraining
    ensures data.includeCrossTraining.Some? ==> f.includeCrossTraining == data.includeCrossTraining
    ensures data.safeOutdoorRoutes.None? ==> f.safeOutdoorRoutes == Some(true)
    ensures data.includeStrengthTraining.None? ==> f.includeStrengthTraining == Some(true)
    ensures data.includeCrossTraining.None? ==> f.includeCrossTraining == Some(false)
  {
    NoKeys.(
      availableEquipment := Some(data.availableEquipment.GetOr([])),
      safeOutdoorRoutes := Some(data.safeOutdoorRoutes.GetOr(true)),
      includeStrengthTraining := Some(data.includeStrengthTraining.GetOr(true)),
      includeCrossTraining := Some(data.includeCrossTraining.GetOr(false)))
  }

  /** Coming back to the step with what it handed on shows the same form. */
  lemma InitialEquipmentIdempotent(data: PartialForm)
    ensures InitialEquipment(InitialEquipment(data)) == InitialEquipment(data)
  {
  }

  /** What the step hands on, spread over the accumulated form, replaces
      exactly its four keys and keeps every other key. */
  lemma EquipmentMergeTouchesOnlyItsKeys(base: PartialForm, emitted: PartialForm)
    requires EquipmentKeysOnly(emitted)
    ensures Spread(base, emitted) ==
      base.(availableEquipment := emitted.availableEquipment,
            safeOutdoorRoutes := emitted.safeOutdoorRoutes,
            includeStrengthTraining := emitted.includeStrengthTraining,
            includeCrossTraining := emitted.includeCrossTraining)
  {
  }

  /** `equipmentCategories`, in declaration order. */
  const EquipmentCategories: seq<(string, seq<EquipmentType>)> := [
    ("Indoor Training", [BikeTrainer, Treadmill]),
    ("Monitoring Devices", [HeartRateMonitor, PowerMeter, GpsWatch]),
    ("Facilities", [PoolAccess, GymAccess, StrengthEquipment])
  ]

  /** The checklist items, category after category. */
  function CategoryItems(cs: seq<(string, seq<EquipmentType>)>): (items: seq<EquipmentType>)
    ensures forall c :: c in cs ==> forall e :: e in c.1 ==> e in items
    ensures forall e :: e in items ==> exists c :: c in cs && e in c.1
  {
    if cs == [] then [] else cs[0].1 + CategoryItems(cs[1..])
  }

  /** The three categories list the eight equipment types, each once. */
  lemma CategoriesCoverEquipment()
    ensures CategoryItems(EquipmentCategories) == AllEquipment
    ensures |CategoryItems(EquipmentCategories)| == 8
    ensures forall i, j :: 0 <= i < j < 8 ==> CategoryItems(EquipmentCategories)[i] != CategoryItems(EquipmentCategories)[j]
    ensures forall e: EquipmentType :: e in CategoryItems(EquipmentCategories)
  {
    assert EquipmentCategories[1..][1..][1..] == [];
    AllEquipmentIsEnumeration();
  }

  class EquipmentEditor {
    var formData: PartialForm

    predicate Valid()
      reads this
    {
      EquipmentKeysOnly(formData)
    }

    constructor(data: PartialForm)
      ensures Valid() && formData == InitialEquipment(data)
    {
      formData := InitialEquipment(data);
    }

    /** Whether the checkbox of `e` shows as checked. */
    function IsChecked(e: EquipmentType): bool
      reads this
    {
      e in formData.availableEquipment.GetOr([])
    }

    /** `handleEquipmentToggle`: removes a checked item, appends an
        unchecked one; only the equipment list changes. */
    method ToggleEquipment(e: EquipmentType)
      requires Valid()
      modifies this
      ensures Valid()
      ensures formData == old(formData).(availableEquipment := Some(Toggle(old(formData).availableEquipment.value, e)))
      ensures IsChecked(e) <==> !old(IsChecked(e))
    {
      var current := formData.availableEquipment.GetOr([]);
      var updated := if e in current then RemoveAll(current, e) else current + [e];
      formData := formData.(availableEquipment := Some(updated));
    }

    // `handleInputChange`, one method per toggle it is used with.

    method SetSafeOutdoorRoutes(checked: bool)
      requires Valid()
      modifies this
      ensures Valid() && formData == old(formData).(safeOutdoorRoutes := Some(checked))
    {
      formData := formData.(safeOutdoorRoutes := Some(checked));
    }

    method SetIncludeStrengthTraining(checked: bool)
      requires Valid()
      modifies this
      ensures Valid() && formData == old(formData).(includeStrengthTraining := Some(checked))
    {
      formData := formData.(includeStrengthTraining := Some(checked));
    }

    method SetIncludeCrossTraining(checked: bool)
      requires Valid()
      modifies this
      ensures Valid() && formData == old(formData).(includeCrossTraining := Some(checked))
    {
      formData := formData.(includeCrossTraining := Some(checked));
    }

    /** `handleNext`: hands on the four fields of this step. */
    method Next() returns (emitted: PartialForm)
      requires Valid()
      ensures emitted == formData && EquipmentKeysOnly(emitted)
    {
      emitted := formData;
    }
  }
}
