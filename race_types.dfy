/**
  Races: the eight race types, their wire names, the two categories the
  race form groups them into, and the icon of each type.
  Dates are day numbers.
*/
module RaceTypes {
  import opened Wrappers
  import Text

  datatype RaceType =
    | Run5k | Run10k | RunHalfMarathon | RunMarathon
    | TriSprint | TriOlympic | TriHalf | TriFull

  datatype Race = Race(id: string, userId: string, raceType: RaceType, raceDate: int)

  /** A race with its countdown (`RaceWithCountdown`). */
  datatype RaceWithCountdown = RaceWithCountdown(race: Race, daysUntilRace: int, isPast: bool)

  /** The wire name of a race type: "Run - " and the distance for the
      running types, "Triathlon - " and the format for the triathlons. */
  function RaceTypeName(t: RaceType): (n: string)
    ensures Text.StartsWith(n, "Run - ") <==> t in Running
    ensures Text.StartsWith(n, "Triathlon - ") <==> t in Triathlon
  {
    CategoriesPartitionRaceTypes();
    match t
    case Run5k => assert Running[0] == t; OtherPrefix("Run - 5km", "Triathlon - "); "Run - 5km"
    case Run10k => assert Running[1] == t; OtherPrefix("Run - 10km", "Triathlon - "); "Run - 10km"
    case RunHalfMarathon => assert Running[2] == t; OtherPrefix("Run - Half Marathon", "Triathlon - "); "Run - Half Marathon"
    case RunMarathon => assert Running[3] == t; OtherPrefix("Run - Marathon", "Triathlon - "); "Run - Marathon"
    case TriSprint => assert Triathlon[0] == t; OtherPrefix("Triathlon - Sprint", "Run - "); "Triathlon - Sprint"
    case TriOlympic => assert Triathlon[1] == t; OtherPrefix("Triathlon - Olympic", "Run - "); "Triathlon - Olympic"
    case TriHalf => assert Triathlon[2] == t; OtherPrefix("Triathlon - 70.3", "Run - "); "Triathlon - 70.3"
    case TriFull => assert Triathlon[3] == t; OtherPrefix("Triathlon - Full", "Run - "); "Triathlon - Full"
  }

  /** A text whose first character differs from the prefix's does not start
      with it. */
  lemma OtherPrefix(s: string, prefix: string)
    requires |s| > 0 && |prefix| > 0 && s[0] != prefix[0]
    ensures !Text.StartsWith(s, prefix)
  {
    if |prefix| <= |s| {
      assert s[..|prefix|][0] != prefix[0];
    }
  }

  /** Reads a wire name back; `None` for any other text. */
  function ParseRaceType(s: string): (r: Option<RaceType>)
    ensures r.Some? ==> RaceTypeName(r.value) == s
  {
    if s == "Run - 5km" then Some(Run5k)
    else if s == "Run - 10km" then Some(Run10k)
    else if s == "Run - Half Marathon" then Some(RunHalfMarathon)
    else if s == "Run - Marathon" then Some(RunMarathon)
    else if s == "Triathlon - Sprint" then Some(TriSprint)
    else if s == "Triathlon - Olympic" then Some(TriOlympic)
    else if s == "Triathlon - 70.3" then Some(TriHalf)
    else if s == "Triathlon - Full" then Some(TriFull)
    else None
  }

  /** Every race type reads back from its wire name, so the names are distinct. */
  lemma ParseRaceTypeName(t: RaceType)
    ensures ParseRaceType(RaceTypeName(t)) == Some(t)
  {
    match t
    case Run5k => case Run10k => case RunHalfMarathon => case RunMarathon =>
    case TriSprint => case TriOlympic => case TriHalf => case TriFull =>
  }

  /** `RACE_CATEGORIES.Running`. */
  const Running: seq<RaceType> := [Run5k, Run10k, RunHalfMarathon, RunMarathon]

  /** `RACE_CATEGORIES.Triathlon`. */
  const Triathlon: seq<RaceType> := [TriSprint, TriOlympic, TriHalf, TriFull]

  /** The two categories are disjoint and together list every race type once. */
  lemma CategoriesPartitionRaceTypes()
    ensures forall t: RaceType :: (t in Running) != (t in Triathlon)
    ensures |Running + Triathlon| == 8
    ensures forall i, j :: 0 <= i < j < |Running + Triathlon| ==> (Running + Triathlon)[i] != (Running + Triathlon)[j]
  {
    forall t: RaceType ensures (t in Running) != (t in Triathlon) {
      match t
      case Run5k => assert Running[0] == t;
      case Run10k => assert Running[1] == t;
      case RunHalfMarathon => assert Running[2] == t;
      case RunMarathon => assert Running[3] == t;
      case TriSprint => assert Triathlon[0] == t;
      case TriOlympic => assert Triathlon[1] == t;
      case TriHalf => assert Triathlon[2] == t;
      case TriFull => assert Triathlon[3] == t;
    }
  }

  /** The runner glyph, and the runner with the male sign that the longer
      runs and the triathlons use. */
  const Runner: string := "\U{1F3C3}"
  const RunnerMale: string := "\U{1F3C3}\U{200D}\U{2642}\U{FE0F}"
  const SwimBikeRun: string :=
    "\U{1F3CA}\U{200D}\U{2642}\U{FE0F}\U{1F6B4}\U{200D}\U{2642}\U{FE0F}" + RunnerMale

  /** `RACE_TYPE_ICONS`: running icons start with the runner glyph; exactly
      the triathlons show all three sports. */
  function RaceTypeIcon(t: RaceType): (icon: string)
    ensures |icon| > 0
    ensures t in Running ==> icon[0] == Runner[0]
    ensures (icon == SwimBikeRun) <==> t in Triathlon
  {
    CategoriesPartitionRaceTypes();
    match t
    case Run5k | Run10k => Runner
    case RunHalfMarathon | RunMarathon => RunnerMale
    case _ => SwimBikeRun
  }
}
