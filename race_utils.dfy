/**
  Race countdowns: days until a race, attaching countdowns to whatever the
  races endpoint returned, ordering by date, the next upcoming race and
  the countdown label. "Today" is a parameter (a day number).
*/
module RaceUtils {
  import opened Wrappers
  import opened Text
  import opened Sorting
  import opened RaceTypes

  /** `calculateDaysUntilRace`: whole days from today's midnight to the
      race day's midnight; negative once the race is over. */
  function DaysUntilRace(raceDate: int, today: int): (d: int)
    ensures d < 0 <==> raceDate < today
    ensures today + d == raceDate
  {
    raceDate - today
  }

  function WithCountdown(r: Race, today: int): (c: RaceWithCountdown)
    ensures c.race == r
    ensures c.isPast <==> c.daysUntilRace < 0
    ensures c.daysUntilRace == DaysUntilRace(r.raceDate, today)
  {
    var d := DaysUntilRace(r.raceDate, today);
    RaceWithCountdown(r, d, d < 0)
  }

  function MapWithCountdown(rs: seq<Race>, today: int): (cs: seq<RaceWithCountdown>)
    ensures |cs| == |rs|
    ensures forall i :: 0 <= i < |rs| ==> cs[i] == WithCountdown(rs[i], today)
  {
    if rs == [] then [] else [WithCountdown(rs[0], today)] + MapWithCountdown(rs[1..], today)
  }

  /**
    The shapes the races endpoint may answer with: nothing, an array, or an
    object. For an object, `hasType`/`hasDate` say whether its `race_type`
    and `race_date` are truthy (then `race` is what it holds), and `races`
    is its `races` member when that is an array.
  */
  datatype RacesPayload =
    | Falsy
    | List(items: seq<Race>)
    | Obj(race: Race, hasType: bool, hasDate: bool, races: Option<seq<Race>>)

  /** `addCountdownToRaces`. */
  function AddCountdownToRaces(p: RacesPayload, today: int): (cs: seq<RaceWithCountdown>)
    ensures p.List? ==> cs == MapWithCountdown(p.items, today)
    ensures p.Obj? && p.hasType && p.hasDate ==> cs == [WithCountdown(p.race, today)]
    ensures p.Obj? && !(p.hasType && p.hasDate) && p.races.Some? ==> cs == MapWithCountdown(p.races.value, today)
    ensures p.Falsy? || (p.Obj? && !(p.hasType && p.hasDate) && p.races.None?) ==> cs == []
  {
    match p
    case Falsy => []
    case List(items) => MapWithCountdown(items, today)
    case Obj(race, hasType, hasDate, races) =>
      if hasType && hasDate then [WithCountdown(race, today)]
      else if races.Some? then MapWithCountdown(races.value, today)
      else []
  }

  /** Every race in the answer carries a countdown consistent with today. */
  lemma AddCountdownConsistent(p: RacesPayload, today: int)
    ensures forall c :: c in AddCountdownToRaces(p, today) ==>
      c.daysUntilRace == c.race.raceDate - today && (c.isPast <==> c.race.raceDate < today)
  {
  }

  function DateKey(c: RaceWithCountdown): Key { Key(c.race.raceDate, 0) }

  /** `sortRacesByDate`: a copy in ascending date order; races on the same
      day keep their order. */
  function SortRacesByDate(cs: seq<RaceWithCountdown>): (r: seq<RaceWithCountdown>)
    ensures multiset(r) == multiset(cs)
    ensures forall i, j :: 0 <= i < j < |r| ==> r[i].race.raceDate <= r[j].race.raceDate
  {
    var s := SortBy(cs, DateKey);
    assert forall i, j :: 0 <= i < j < |s| ==> KeyLe(DateKey(s[i]), DateKey(s[j]));
    s
  }

  function IsUpcoming(c: RaceWithCountdown): bool { !c.isPast }

  /** `getUpcomingRaces`: the races not yet past, in their order. */
  function UpcomingRaces(cs: seq<RaceWithCountdown>): (r: seq<RaceWithCountdown>)
    ensures forall c :: c in r <==> c in cs && !c.isPast
    ensures forall c :: multiset(r)[c] == if c.isPast then 0 else multiset(cs)[c]
  {
    var r := Filter(cs, IsUpcoming);
    assert forall c :: c in r ==> c in multiset(cs);
    forall c ensures multiset(r)[c] == if c.isPast then 0 else multiset(cs)[c] {
      FilterCounts(cs, IsUpcoming, c);
    }
    r
  }

  /** The filter keeps the list order: the upcoming races of a
      concatenation are those of each part in turn, and a single race is
      kept exactly when it is not past. */
  lemma UpcomingRacesAppend(a: seq<RaceWithCountdown>, b: seq<RaceWithCountdown>)
    ensures UpcomingRaces(a + b) == UpcomingRaces(a) + UpcomingRaces(b)
    ensures |a| == 1 ==> UpcomingRaces(a) == if a[0].isPast then [] else a
  {
    FilterAppend(a, b, IsUpcoming);
    if |a| == 1 {
      assert a[1..] == [];
    }
  }

  /** `getNextRace`: the earliest upcoming race (the first such in the list
      when several share that day), or `None`. */
  function NextRace(cs: seq<RaceWithCountdown>): (r: Option<RaceWithCountdown>)
    ensures r.None? <==> forall c :: c in cs ==> c.isPast
    ensures r.Some? ==> r.value in cs && !r.value.isPast
    ensures r.Some? ==> forall c :: c in cs && !c.isPast ==> r.value.race.raceDate <= c.race.raceDate
  {
    var up := UpcomingRaces(cs);
    var sorted := SortRacesByDate(up);
    SortedUpcoming(cs, up, sorted);
    if |sorted| > 0 then Some(sorted[0]) else None
  }

  /** Among races on the earliest day, the one chosen is the first in the
      list: every upcoming race before it is on a later day. */
  lemma NextRaceIsFirst(cs: seq<RaceWithCountdown>)
    requires NextRace(cs).Some?
    ensures exists k :: 0 <= k < |cs| && cs[k] == NextRace(cs).value &&
              forall j :: 0 <= j < k && !cs[j].isPast ==> cs[j].race.raceDate > cs[k].race.raceDate
  {
    SortedFilterHeadIsFirst(cs, IsUpcoming, DateKey);
    var k :| FirstLeastAt(cs, IsUpcoming, DateKey, k) && SortBy(Filter(cs, IsUpcoming), DateKey)[0] == cs[k];
    forall j | 0 <= j < k && !cs[j].isPast ensures cs[j].race.raceDate > cs[k].race.raceDate {
      assert IsUpcoming(cs[j]);
      assert !KeyLe(DateKey(cs[j]), DateKey(cs[k]));
    }
  }

  /** The sorted upcoming races are exactly the races not yet past, the
      first of them on the earliest day. */
  lemma SortedUpcoming(cs: seq<RaceWithCountdown>, up: seq<RaceWithCountdown>, sorted: seq<RaceWithCountdown>)
    requires forall c :: c in up <==> c in cs && !c.isPast
    requires multiset(sorted) == multiset(up)
    requires forall i, j :: 0 <= i < j < |sorted| ==> sorted[i].race.raceDate <= sorted[j].race.raceDate
    ensures forall c :: c in sorted <==> c in cs && !c.isPast
    ensures |sorted| > 0 ==> forall c :: c in sorted ==> sorted[0].race.raceDate <= c.race.raceDate
  {
    forall c ensures c in sorted <==> c in up {
      assert c in sorted <==> c in multiset(sorted);
      assert c in up <==> c in multiset(up);
    }
  }

  // ---------------------------------------------------------------------
  // Countdown label

  /** `formatCountdown`. */
  function FormatCountdown(days: int): (s: string)
    ensures days == 0 <==> s == "Today!"
    ensures days == 1 <==> s == "Tomorrow!"
    ensures days < 0 ==> ReadNat(s) == Some((-days, if days == -1 then " day ago" else " days ago"))
    ensures days > 1 ==> ReadNat(s) == Some((days, " days to go"))
  {
    if days < 0 then
      var past: nat := -days;
      var suffix := if past == 1 then " day ago" else " days ago";
      ReadNatToString(past, suffix);
      NatToString(past) + suffix
    else if days == 0 then "Today!"
    else if days == 1 then "Tomorrow!"
    else
      ReadNatToString(days, " days to go");
      NatToString(days) + " days to go"
  }

  /** Different countdowns get different labels. */
  lemma FormatCountdownInjective(a: int, b: int)
    requires FormatCountdown(a) == FormatCountdown(b)
    ensures a == b
  {
    if a < 0 && b < 0 {
      assert ReadNat(FormatCountdown(a)).value.0 == -a;
    } else if a > 1 && b > 1 {
      assert ReadNat(FormatCountdown(a)).value.0 == a;
    }
  }
}
