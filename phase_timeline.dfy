/**
  The phase timeline of a training plan: a row of coloured blocks whose
  widths are each phase's share of the plan, a marker at the current
  week, and one detail card per named phase. Phases come either as
  `TrainingPhase` records or in the API's shape, where the name may be
  `phase_name` and the weeks a range text such as "1-3".
*/
module PhaseTimeline {
  import opened Wrappers
  import opened Text
  import opened PlanTypes

  const FallbackColour := "#6B7280"

  // ---------------------------------------------------------------------
  // Week ranges

  /** The weeks from a start week to an end week, inclusive; `None` (NaN)
      when either end did not parse. */
  function WeeksBetween(start: Option<int>, end: Option<int>): (w: Option<int>)
    ensures w.Some? <==> start.Some? && end.Some?
    ensures w.Some? ==> w.value == end.value - start.value + 1
  {
    if start.Some? && end.Some? then Some(end.value - start.value + 1) else None
  }

  /** `parseWeeksFromRange`: "a-b" counts the weeks a to b inclusive; a
      text without '-' is one week. Only the first two pieces of the split
      are read. */
  function ParseWeeksFromRange(weekRange: string): (w: Option<int>)
    ensures '-' !in weekRange ==> w == Some(1)
    ensures '-' in weekRange ==>
      var parts := Split(weekRange, '-');
      |parts| >= 2 && w == WeeksBetween(ParseInt(Trim(parts[0])), ParseInt(Trim(parts[1])))
  {
    if '-' in weekRange then
      var parts := Split(weekRange, '-');
      assert |parts| >= 2;
      WeeksBetween(ParseInt(Trim(parts[0])), ParseInt(Trim(parts[1])))
    else
      Some(1)
  }

  /** A digit string is its own trim. */
  lemma DigitsAreTrimmed(d: string)
    requires AllDigits(d)
    ensures Trim(d) == d
  {
    if d != [] {
      assert IsDigit(d[0]) && IsDigit(d[|d| - 1]);
    }
    TrimOfTrimmed(d);
  }

  /** The first separator of "a-b" is the one after the digits of a. */
  lemma SplitRange(a: string, b: string)
    requires AllDigits(a) && AllDigits(b)
    ensures Split(a + "-" + b, '-') == [a, b]
  {
    var s := a + "-" + b;
    assert s[|a|] == '-';
    assert '-' !in a by {
      forall i | 0 <= i < |a| ensures a[i] != '-' { assert IsDigit(a[i]); }
    }
    assert '-' !in b by {
      forall i | 0 <= i < |b| ensures b[i] != '-' { assert IsDigit(b[i]); }
    }
    var i := IndexOfChar(s, '-');
    assert i == |a|;
    assert s[..i] == a;
    assert s[i + 1..] == b;
  }

  /** A range text reads its first two pieces. */
  lemma RangeOfPieces(s: string, first: string, last: string)
    requires '-' in s && Split(s, '-') == [first, last]
    ensures ParseWeeksFromRange(s) == WeeksBetween(ParseInt(Trim(first)), ParseInt(Trim(last)))
  {
  }

  lemma BetweenParsed(start: Option<int>, end: Option<int>, x: int, y: int)
    requires start == Some(x) && end == Some(y)
    ensures WeeksBetween(start, end) == Some(y - x + 1)
  {
  }

  /** A range written "a-b" counts b - a + 1 weeks. */
  lemma RangeWeeks(a: nat, b: nat)
    ensures ParseWeeksFromRange(NatToString(a) + "-" + NatToString(b)) == Some(b - a + 1)
  {
    var sa, sb := NatToString(a), NatToString(b);
    var s := sa + "-" + sb;
    assert s[|sa|] == '-';
    SplitRange(sa, sb);
    DigitsAreTrimmed(sa);
    DigitsAreTrimmed(sb);
    ParseIntOfNatToString(a);
    ParseIntOfNatToString(b);
    RangeOfPieces(s, sa, sb);
    BetweenParsed(ParseInt(Trim(sa)), ParseInt(Trim(sb)), a, b);
  }

  // ---------------------------------------------------------------------
  // Phase records

  /** `weeks` as received: a number, a range text, or absent. */
  datatype WeeksField = WeeksNumber(n: int) | WeeksText(text: string) | WeeksAbsent

  /** A phase in either shape; `None` is an absent property. */
  datatype RawPhase = RawPhase(phaseName: Option<string>, name: Option<string>, weeks: WeeksField)

  /** `phase.phase_name || phase.name`. */
  function PhaseNameOf(p: RawPhase): (n: Option<string>)
    ensures StringTruthy(p.phaseName) ==> n == p.phaseName
    ensures !StringTruthy(p.phaseName) ==> n == p.name
  {
    if StringTruthy(p.phaseName) then p.phaseName else p.name
  }

  /** A numeric `weeks` as-is, a text parsed as a range; `None` is
      `undefined` or NaN. */
  function PhaseWeeksOf(p: RawPhase): (w: Option<int>)
    ensures p.weeks.WeeksNumber? ==> w == Some(p.weeks.n)
    ensures p.weeks.WeeksText? ==> w == ParseWeeksFromRange(p.weeks.text)
    ensures p.weeks.WeeksAbsent? ==> w.None?
  {
    match p.weeks
    case WeeksNumber(n) => Some(n)
    case WeeksText(t) => ParseWeeksFromRange(t)
    case WeeksAbsent => None
  }

  /** Timeline blocks need a name and non-zero weeks. */
  predicate ShownAsBlock(p: RawPhase) {
    StringTruthy(PhaseNameOf(p)) && Truthy(PhaseWeeksOf(p))
  }

  /** Detail cards need only a name. */
  predicate ShownAsCard(p: RawPhase) {
    StringTruthy(PhaseNameOf(p))
  }

  // ---------------------------------------------------------------------
  // Colours and percentages

  /** The phase whose wire name is `key`, if any. */
  function PhaseOfName(key: string): (r: Option<WorkoutPhase>)
    ensures r.Some? ==> PhaseName(r.value) == key
    ensures r.None? ==> forall p: WorkoutPhase :: PhaseName(p) != key
  {
    if key == "base" then Some(Base)
    else if key == "build" then Some(Build)
    else if key == "peak" then Some(Peak)
    else if key == "taper" then Some(Taper)
    else if key == "recovery" then Some(Recovery)
    else if key == "transition" then Some(Transition)
    else None
  }

  /** A name belongs to at most one phase: the one the lookup returns. */
  lemma PhaseOfNameUnique(key: string)
    ensures forall p: WorkoutPhase :: PhaseName(p) == key ==> PhaseOfName(key) == Some(p)
  {
    forall p: WorkoutPhase | PhaseName(p) == key
      ensures PhaseOfName(key) == Some(p)
    {
      PhaseNameInjective(p, PhaseOfName(key).value);
    }
  }

  /** The colour looked up by the lower-cased name, with the grey fallback. */
  function ColourFor(name: string): (c: string)
    ensures (forall p: WorkoutPhase :: PhaseName(p) != Lower(name)) ==> c == FallbackColour
    ensures forall p: WorkoutPhase :: PhaseName(p) == Lower(name) ==> c == PhaseColors()[p]
  {
    PhaseOfNameUnique(Lower(name));
    match PhaseOfName(Lower(name))
    case Some(p) => PhaseColors()[p]
    case None => FallbackColour
  }

  /** A text with no capital letter is its own lower case. */
  lemma LowerOfLowerCase(s: string)
    requires forall i :: 0 <= i < |s| ==> !('A' <= s[i] <= 'Z')
    ensures Lower(s) == s
  {
  }

  /** Every phase's own name finds its colour, whatever its case. */
  lemma ColourOfEachPhase(p: WorkoutPhase)
    ensures ColourFor(PhaseName(p)) == PhaseColors()[p]
    ensures ColourFor("Base") == PhaseColors()[Base]
  {
    LowerOfLowerCase(PhaseName(p));
    assert Lower("Base") == "base";
  }

  /** A percentage of a total; a zero total gives Infinity or NaN. */
  datatype Percent = Finite(value: real) | NonFinite

  function PercentOf(part: int, total: int): (p: Percent)
    ensures p.NonFinite? <==> total == 0
    ensures p.Finite? ==> p.value * total as real == part as real * 100.0
  {
    if total == 0 then NonFinite else Finite(part as real / total as real * 100.0)
  }

  // ---------------------------------------------------------------------
  // The rendered timeline

  datatype Block = Block(name: string, weeks: int, width: Percent, colour: string)

  datatype Card = Card(name: string, weekRange: string, plural: bool, colour: string)

  function BlockOf(p: RawPhase, totalWeeks: int): Block
    requires ShownAsBlock(p)
  {
    var name := PhaseNameOf(p).value;
    var weeks := PhaseWeeksOf(p).value;
    Block(name, weeks, PercentOf(weeks, totalWeeks), ColourFor(name))
  }

  /** The week text of a card: a text `weeks` as written, otherwise the
      number printed (`undefined` when absent). */
  function CardOf(p: RawPhase): Card
    requires ShownAsCard(p)
  {
    var name := PhaseNameOf(p).value;
    var weeks := PhaseWeeksOf(p);
    var range := match p.weeks
      case WeeksText(t) => t
      case WeeksNumber(n) => IntToString(n)
      case WeeksAbsent => "undefined";
    Card(name, range, weeks.Some? && weeks.value > 1, ColourFor(name))
  }

  /** The timeline blocks, in phase order. */
  function Blocks(phases: seq<RawPhase>, totalWeeks: int): (bs: seq<Block>)
    ensures |bs| <= |phases|
    ensures forall i :: 0 <= i < |bs| ==> bs[i].name != [] && bs[i].weeks != 0
    ensures forall i :: 0 <= i < |bs| ==>
      bs[i].width == PercentOf(bs[i].weeks, totalWeeks) && bs[i].colour == ColourFor(bs[i].name)
    ensures (forall i :: 0 <= i < |phases| ==> ShownAsBlock(phases[i])) ==> |bs| == |phases|
    ensures (forall i :: 0 <= i < |phases| ==> !ShownAsBlock(phases[i])) ==> bs == []
  {
    if phases == [] then []
    else
      var rest := Blocks(phases[1..], totalWeeks);
      if ShownAsBlock(phases[0]) then [BlockOf(phases[0], totalWeeks)] + rest else rest
  }

  /** The detail cards, in phase order. */
  function Cards(phases: seq<RawPhase>): (cs: seq<Card>)
    ensures |cs| <= |phases|
    ensures forall i :: 0 <= i < |cs| ==> cs[i].name != [] && cs[i].colour == ColourFor(cs[i].name)
    ensures (forall i :: 0 <= i < |phases| ==> ShownAsCard(phases[i])) ==> |cs| == |phases|
  {
    if phases == [] then []
    else
      var rest := Cards(phases[1..]);
      if ShownAsCard(phases[0]) then [CardOf(phases[0])] + rest else rest
  }

  /** A single phase gives its block exactly when it has a name and
      truthy weeks, and nothing otherwise. */
  lemma BlocksOfOne(p: RawPhase, totalWeeks: int)
    ensures Blocks([p], totalWeeks) == if ShownAsBlock(p) then [BlockOf(p, totalWeeks)] else []
  {
    assert [p][1..] == [];
  }

  /** The blocks of a list are those of its parts, in order: together with
      BlocksOfOne, the i-th block is the block of the i-th phase shown. */
  lemma {:induction false} BlocksAppend(a: seq<RawPhase>, b: seq<RawPhase>, totalWeeks: int)
    ensures Blocks(a + b, totalWeeks) == Blocks(a, totalWeeks) + Blocks(b, totalWeeks)
  {
    if a == [] {
      assert a + b == b;
    } else {
      assert (a + b)[1..] == a[1..] + b;
      BlocksAppend(a[1..], b, totalWeeks);
    }
  }

  /** A single phase gives its card exactly when it has a name. */
  lemma CardsOfOne(p: RawPhase)
    ensures Cards([p]) == if ShownAsCard(p) then [CardOf(p)] else []
  {
    assert [p][1..] == [];
  }

  /** The cards of a list are those of its parts, in order. */
  lemma {:induction false} CardsAppend(a: seq<RawPhase>, b: seq<RawPhase>)
    ensures Cards(a + b) == Cards(a) + Cards(b)
  {
    if a == [] {
      assert a + b == b;
    } else {
      assert (a + b)[1..] == a[1..] + b;
      CardsAppend(a[1..], b);
    }
  }

  /** Every block has a card: the block rule is the card rule plus weeks. */
  lemma {:induction false} BlocksWithinCards(phases: seq<RawPhase>, totalWeeks: int)
    ensures |Blocks(phases, totalWeeks)| <= |Cards(phases)|
  {
    if phases != [] {
      BlocksWithinCards(phases[1..], totalWeeks);
    }
  }

  function WeeksSum(bs: seq<Block>): int {
    if bs == [] then 0 else bs[0].weeks + WeeksSum(bs[1..])
  }

  function WidthSum(bs: seq<Block>): real
    requires forall i :: 0 <= i < |bs| ==> bs[i].width.Finite?
  {
    if bs == [] then 0.0 else bs[0].width.value + WidthSum(bs[1..])
  }

  /** The widths add up to the blocks' share of the plan. */
  lemma {:induction false} WidthSumIsShare(bs: seq<Block>, totalWeeks: int)
    requires totalWeeks != 0
    requires forall i :: 0 <= i < |bs| ==> bs[i].width == PercentOf(bs[i].weeks, totalWeeks)
    requires forall i :: 0 <= i < |bs| ==> bs[i].width.Finite?
    ensures WidthSum(bs) * totalWeeks as real == WeeksSum(bs) as real * 100.0
  {
    if bs != [] {
      WidthSumIsShare(bs[1..], totalWeeks);
      assert bs[0].width.value * totalWeeks as real == bs[0].weeks as real * 100.0;
    }
  }

  lemma CancelFactor(w: real, t: real, n: real)
    requires t != 0.0 && n == t && w * t == n * 100.0
    ensures w == 100.0
  {
    assert w * t - 100.0 * t == 0.0;
    assert (w - 100.0) * t == 0.0;
  }

  /** When the blocks' weeks add up to the plan length, the row is full.
      The blocks of `Blocks` meet the width requirement. */
  lemma FullRow(bs: seq<Block>, totalWeeks: int)
    requires totalWeeks != 0
    requires forall i :: 0 <= i < |bs| ==> bs[i].width == PercentOf(bs[i].weeks, totalWeeks)
    requires WeeksSum(bs) == totalWeeks
    ensures forall i :: 0 <= i < |bs| ==> bs[i].width.Finite?
    ensures WidthSum(bs) == 100.0
  {
    assert forall i :: 0 <= i < |bs| ==> bs[i].width.Finite?;
    WidthSumIsShare(bs, totalWeeks);
    var w, t, n := WidthSum(bs), totalWeeks as real, WeeksSum(bs) as real;
    CancelFactor(w, t, n);
  }

  datatype View =
    | Placeholder
    | Timeline(marker: Option<Percent>, blocks: seq<Block>, cards: seq<Card>)

  /** The component: the placeholder for no phases; otherwise a marker
      when the current week is truthy, and the blocks and the cards. */
  function Render(phases: Option<seq<RawPhase>>, currentWeek: Option<int>, totalWeeks: int): (v: View)
    ensures v.Placeholder? <==> phases.None? || phases.value == []
    ensures v.Timeline? ==> (v.marker.Some? <==> Truthy(currentWeek))
    ensures v.Timeline? && Truthy(currentWeek) ==> v.marker.value == PercentOf(currentWeek.value, totalWeeks)
    ensures v.Timeline? ==> v.blocks == Blocks(phases.value, totalWeeks) && v.cards == Cards(phases.value)
  {
    if phases.None? || phases.value == [] then Placeholder
    else
      Timeline(
        if Truthy(currentWeek) then Some(PercentOf(currentWeek.value, totalWeeks)) else None,
        Blocks(phases.value, totalWeeks),
        Cards(phases.value))
  }
}
