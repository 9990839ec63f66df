/**
  The race-selection step of the wizard: the races offered (upcoming
  ones, soonest first), the countdown badge, and the selection that is
  handed on as the plan's race.
*/
module RaceSelection {
  import opened Wrappers
  import opened Text
  import opened Sorting
  import opened RaceTypes
  import opened PlanTypes
  import opened PlanUtils

  /** `Array.isArray(races) ? races : []`; `None` is a value that is not
      an array. */
  function SafeRaces(races: Option<seq<Race>>): (r: seq<Race>)
    ensures races.Some? ==> r == races.value
    ensures races.None? ==> r == []
  {
    races.GetOr([])
  }

  function RaceDateKey(r: Race): Key { Key(r.raceDate, 0) }

  /** A race is offered when `differenceInDays` from now is not negative,
      which is when it is today or later. */
  predicate Offered(now: Now, x: Race)
    ensures Offered(now, x) <==> x.raceDate >= now.day
  {
    DaysFromNow(x.raceDate, now) >= 0
  }

  /** The filter callback. */
  function OfferedFrom(now: Now): Race -> bool {
    (x: Race) => Offered(now, x)
  }

  /** The races offered, in ascending date order: a permutation of the
      filtered list, so every copy of a race of today or later is kept. */
  function UpcomingRaces(races: Option<seq<Race>>, now: Now): (r: seq<Race>)
    ensures forall i :: 0 <= i < |r| ==> Offered(now, r[i])
    ensures forall i, j :: 0 <= i < j < |r| ==> r[i].raceDate <= r[j].raceDate
    ensures forall x :: x in r <==> x in SafeRaces(races) && x.raceDate >= now.day
    ensures multiset(r) <= multiset(SafeRaces(races))
    ensures multiset(r) == multiset(Filter(SafeRaces(races), OfferedFrom(now)))
    ensures forall x :: multiset(r)[x] == if x.raceDate >= now.day then multiset(SafeRaces(races))[x] else 0
  {
    var src := SafeRaces(races);
    var kept := Filter(src, OfferedFrom(now));
    var s := SortBy(kept, RaceDateKey);
    OfferedInOrder(src, kept, s, now);
    forall x ensures multiset(s)[x] == if x.raceDate >= now.day then multiset(src)[x] else 0 {
      FilterCounts(src, OfferedFrom(now), x);
    }
    s
  }

  /** The sorted offer keeps exactly the races of today or later. */
  lemma OfferedInOrder(src: seq<Race>, kept: seq<Race>, s: seq<Race>, now: Now)
    requires forall i :: 0 <= i < |kept| ==> Offered(now, kept[i])
    requires multiset(kept) <= multiset(src)
    requires forall i :: 0 <= i < |src| && Offered(now, src[i]) ==> src[i] in kept
    requires multiset(s) == multiset(kept) && SortedBy(s, RaceDateKey)
    ensures forall i :: 0 <= i < |s| ==> Offered(now, s[i])
    ensures forall i, j :: 0 <= i < j < |s| ==> s[i].raceDate <= s[j].raceDate
    ensures forall x :: x in s <==> x in src && x.raceDate >= now.day
    ensures multiset(s) <= multiset(src)
  {
    SortedMembers(kept, s);
    forall x | x in src && Offered(now, x) ensures x in kept {
      var i :| 0 <= i < |src| && src[i] == x;
    }
    assert forall x :: x in kept ==> x in multiset(src);
    assert forall i :: 0 <= i < |s| ==> s[i] in kept;
    assert forall i, j :: 0 <= i < j < |s| ==> KeyLe(RaceDateKey(s[i]), RaceDateKey(s[j]));
  }

  /** A permutation has the same members. */
  lemma SortedMembers(kept: seq<Race>, s: seq<Race>)
    requires multiset(s) == multiset(kept)
    ensures forall x :: x in s <==> x in kept
  {
    forall x ensures x in s <==> x in kept {
      assert x in s <==> x in multiset(s);
      assert x in kept <==> x in multiset(kept);
    }
  }

  /** What the step shows. */
  datatype Screen = Loading | NoUpcomingRaces | Choose(races: seq<Race>)

  /** Loading wins; then an empty offer shows the no-races screen, which
      has no continue action. */
  function StepScreen(loading: bool, races: Option<seq<Race>>, now: Now): (s: Screen)
    ensures loading <==> s.Loading?
    ensures s.NoUpcomingRaces? <==> !loading && forall x :: x in SafeRaces(races) ==> x.raceDate < now.day
    ensures s.Choose? ==> s.races == UpcomingRaces(races, now) && s.races != []
  {
    if loading then Loading
    else
      var upcoming := UpcomingRaces(races, now);
      if |upcoming| == 0 then
        NoUpcomingRaces
      else
        assert upcoming[0] in upcoming;
        Choose(upcoming)
  }

  /** A non-array race list is shown like an empty one. */
  lemma NonArrayIsEmpty(races: Option<seq<Race>>, now: Now)
    requires races.None?
    ensures StepScreen(false, races, now) == NoUpcomingRaces
    ensures StepScreen(false, races, now) == StepScreen(false, Some([]), now)
  {
  }

  // ---------------------------------------------------------------------
  // Countdown badge

  datatype BadgeColour = Red | Yellow | Green

  /** The badge colour: up to 60 days red, up to 120 yellow, else green. */
  function Badge(daysUntil: int): (c: BadgeColour)
    ensures c == Red <==> daysUntil <= 60
    ensures c == Yellow <==> 60 < daysUntil <= 120
    ensures c == Green <==> 120 < daysUntil
  {
    if daysUntil <= 60 then Red
    else if daysUntil <= 120 then Yellow
    else Green
  }

  /** The "Short preparation time" note. */
  function ShortPreparation(daysUntil: int): (shown: bool)
    ensures shown <==> daysUntil < 60
  {
    daysUntil < 60
  }

  function Urgency(c: BadgeColour): nat {
    match c
    case Red => 2
    case Yellow => 1
    case Green => 0
  }

  /** The badge never gets more urgent as the race moves further away;
      the note implies a red badge, and day 60 is the one red day without
      the note. */
  lemma BadgeMonotone(a: int, b: int)
    requires a <= b
    ensures Urgency(Badge(b)) <= Urgency(Badge(a))
    ensures ShortPreparation(a) ==> Badge(a) == Red
    ensures Badge(60) == Red && !ShortPreparation(60)
  {
  }

  // ---------------------------------------------------------------------
  // Selection

  class RaceSelector {
    /** `selected`; `None` is `undefined`, or the NaN of an id that does
        not parse (both falsy and equal to no id). */
    var selected: Option<int>

    constructor(selectedRaceId: Option<int>)
      ensures selected == selectedRaceId
    {
      selected := selectedRaceId;
    }

    /** Whether the card of `race` is highlighted. */
    function IsSelected(race: Race): bool
      reads this
    {
      selected.Some? && ParseInt(race.id) == selected
    }

    /** Clicking a card: selects the race's numeric id. */
    method Select(race: Race)
      modifies this
      ensures selected == ParseInt(race.id)
      ensures ParseInt(race.id).Some? ==> IsSelected(race)
    {
      selected := ParseInt(race.id);
    }

    /** `handleNext`: hands on `{race_id: selected}` only when the
        selection is truthy; otherwise nothing happens. */
    method Next() returns (emitted: Option<PartialForm>)
      ensures emitted.Some? <==> Truthy(selected)
      ensures emitted.Some? ==> emitted.value == NoKeys.(raceId := selected)
    {
      if selected.Some? && selected.value != 0 {
        emitted := Some(NoKeys.(raceId := selected));
      } else {
        emitted := None;
      }
    }
  }

  /** Selecting a race whose id is a number and continuing hands on that
      number as the plan's race. */
  method SelectAndContinue(race: Race, n: nat) returns (emitted: Option<PartialForm>)
    requires race.id == NatToString(n) && n != 0
    ensures emitted == Some(NoKeys.(raceId := Some(n)))
  {
    var selector := new RaceSelector(None);
    selector.Select(race);
    ParseIntOfNatToString(n);
    emitted := selector.Next();
  }
}
