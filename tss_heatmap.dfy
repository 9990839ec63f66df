/**
  The training-calendar heatmap: training stress (TSS) summed per day, the
  intensity band of a day's total, the six-week grid shown for a month, the
  years offered by the year selector and the monthly summary. Dates are day
  numbers counted from 1970-01-01 (day 0, a Thursday) in the proleptic
  Gregorian calendar; an empty activity date is `None`.
*/
module TssHeatmap {
  import opened Wrappers
  import opened Sorting

  datatype TssItem = TssItem(date: Option<int>, tssValue: real)

  // ---------------------------------------------------------------------
  // groupTSSByDate

  /** The total of the items dated `d`, in `forEach` order. */
  function TotalOn(items: seq<TssItem>, d: int): real {
    if items == [] then 0.0
    else
      var last := items[|items| - 1];
      TotalOn(items[..|items| - 1], d) + (if last.date == Some(d) then last.tssValue else 0.0)
  }

  /** The distinct dates of the dated items, in order of first appearance
      (the key order of the object being filled). */
  function Dates(items: seq<TssItem>): (ds: seq<int>)
    ensures forall i, j :: 0 <= i < j < |ds| ==> ds[i] != ds[j]
  {
    if items == [] then []
    else
      var ds := Dates(items[..|items| - 1]);
      var last := items[|items| - 1];
      if last.date.Some? && last.date.value !in ds then ds + [last.date.value] else ds
  }

  /** The total of all dated items. */
  function DatedTotal(items: seq<TssItem>): real {
    if items == [] then 0.0
    else
      var last := items[|items| - 1];
      DatedTotal(items[..|items| - 1]) + (if last.date.Some? then last.tssValue else 0.0)
  }

  predicate Dated(items: seq<TssItem>, d: int) {
    exists k :: 0 <= k < |items| && items[k].date == Some(d)
  }

  lemma {:induction false} DatesAreTheItemDates(items: seq<TssItem>, d: int)
    ensures d in Dates(items) <==> Dated(items, d)
  {
    if items != [] {
      var p := items[..|items| - 1];
      DatesAreTheItemDates(p, d);
      if Dated(items, d) && !Dated(p, d) {
        var k :| 0 <= k < |items| && items[k].date == Some(d);
        assert k == |items| - 1;
      }
      if Dated(p, d) {
        var k :| 0 <= k < |p| && p[k].date == Some(d);
        assert items[k] == p[k];
      }
    }
  }

  /** `groupTSSByDate`: one entry per date that some item carries, holding
      the sum of that date's values; undated items are skipped. */
  method GroupTssByDate(items: seq<TssItem>) returns (grouped: map<int, real>)
    ensures forall d :: d in grouped <==> d in Dates(items)
    ensures forall d :: d in grouped ==> grouped[d] == TotalOn(items, d)
  {
    grouped := map[];
    var i := 0;
    while i < |items|
      invariant 0 <= i <= |items|
      invariant forall d :: d in grouped <==> d in Dates(items[..i])
      invariant forall d :: d in grouped ==> grouped[d] == TotalOn(items[..i], d)
    {
      assert items[..i + 1][..i] == items[..i];
      var item := items[i];
      if item.date.Some? {
        var d := item.date.value;
        if d !in grouped {
          TotalOnUndated(items[..i], d);
        }
        var sofar := if d in grouped then grouped[d] else 0.0;
        grouped := grouped[d := sofar + item.tssValue];
      }
      assert forall e :: (TotalOn(items[..i + 1], e)
        == TotalOn(items[..i], e) + (if item.date == Some(e) then item.tssValue else 0.0));
      i := i + 1;
    }
    assert items[..|items|] == items;
  }

  /** A date no item carries totals zero. */
  lemma {:induction false} TotalOnUndated(items: seq<TssItem>, d: int)
    requires d !in Dates(items)
    ensures TotalOn(items, d) == 0.0
  {
    if items != [] {
      TotalOnUndated(items[..|items| - 1], d);
    }
  }

  /** The sum of the per-date totals over some distinct dates. */
  function SumOver(ds: seq<int>, items: seq<TssItem>): real {
    if ds == [] then 0.0 else TotalOn(items, ds[0]) + SumOver(ds[1..], items)
  }

  lemma {:induction false} SumOverSnocItem(ds: seq<int>, items: seq<TssItem>)
    requires items != []
    requires forall i, j :: 0 <= i < j < |ds| ==> ds[i] != ds[j]
    ensures var last := items[|items| - 1];
      SumOver(ds, items) == SumOver(ds, items[..|items| - 1])
        + (if last.date.Some? && last.date.value in ds then last.tssValue else 0.0)
  {
    if ds != [] {
      SumOverSnocItem(ds[1..], items);
      var last := items[|items| - 1];
      if last.date.Some? && last.date.value == ds[0] {
        assert last.date.value !in ds[1..];
      }
    }
  }

  lemma {:induction false} SumOverSnocDate(ds: seq<int>, d: int, items: seq<TssItem>)
    ensures SumOver(ds + [d], items) == SumOver(ds, items) + TotalOn(items, d)
  {
    if ds == [] {
      assert [d][1..] == [];
    } else {
      assert (ds + [d])[1..] == ds[1..] + [d];
      SumOverSnocDate(ds[1..], d, items);
    }
  }

  /** Nothing is lost or counted twice: the per-date totals over the
      grouped dates add up to the sum over all dated items. */
  lemma {:induction false} GroupedTotalsAddUp(items: seq<TssItem>)
    ensures SumOver(Dates(items), items) == DatedTotal(items)
  {
    if items != [] {
      var p := items[..|items| - 1];
      var last := items[|items| - 1];
      GroupedTotalsAddUp(p);
      SumOverSnocItem(Dates(p), items);
      if last.date.Some? && last.date.value !in Dates(p) {
        SumOverSnocDate(Dates(p), last.date.value, items);
        TotalOnUndated(p, last.date.value);
        SumOverSnocItem([last.date.value], items);
      }
    }
  }

  // ---------------------------------------------------------------------
  // getTSSColor and getIntensityLabel

  /** `getTSSColor`: the colour of the total's band. */
  function TssColor(tss: real): (c: string)
    ensures c == BandColours[Band(tss)]
  {
    CountOfBounds(tss);
    if tss == 0.0 then "#1f2937"
    else if tss < 50.0 then "#065f46"
    else if tss < 100.0 then "#047857"
    else if tss < 150.0 then "#059669"
    else if tss < 200.0 then "#10b981"
    else if tss < 300.0 then "#f59e0b"
    else "#ef4444"
  }

  /** `getIntensityLabel`: the label of the total's band. */
  function IntensityLabel(tss: real): (l: string)
    ensures l == BandLabels[Band(tss)]
  {
    CountOfBounds(tss);
    if tss == 0.0 then "Rest"
    else if tss < 50.0 then "Easy"
    else if tss < 100.0 then "Moderate"
    else if tss < 150.0 then "Hard"
    else if tss < 200.0 then "Very Hard"
    else if tss < 300.0 then "Extreme"
    else "Overload"
  }

  /** The band bounds, the colours and the labels, band by band. */
  const Bounds: seq<real> := [50.0, 100.0, 150.0, 200.0, 300.0]
  const BandColours: seq<string> := ["#1f2937", "#065f46", "#047857", "#059669", "#10b981", "#f59e0b", "#ef4444"]
  const BandLabels: seq<string> := ["Rest", "Easy", "Moderate", "Hard", "Very Hard", "Extreme", "Overload"]

  function CountAtMost(bounds: seq<real>, tss: real): (n: nat)
    ensures n <= |bounds|
  {
    if bounds == [] then 0
    else (if bounds[0] <= tss then 1 else 0) + CountAtMost(bounds[1..], tss)
  }

  /** The reference band: 0 for no stress, otherwise one more than the
      number of bounds the total has reached. */
  function Band(tss: real): (b: nat)
    ensures b < |BandLabels|
  {
    if tss == 0.0 then 0 else 1 + CountAtMost(Bounds, tss)
  }

  /** Both if-chains pick the entry of the reference band. */
  lemma CountOfBounds(tss: real)
    ensures CountAtMost(Bounds, tss) ==
      (if tss < 50.0 then 0 else if tss < 100.0 then 1 else if tss < 150.0 then 2
       else if tss < 200.0 then 3 else if tss < 300.0 then 4 else 5)
  {
    var b5: seq<real> := [300.0];
    var b4: seq<real> := [200.0] + b5;
    var b3: seq<real> := [150.0] + b4;
    var b2: seq<real> := [100.0] + b3;
    assert Bounds == [50.0] + b2;
    assert b5[1..] == [] && b4[1..] == b5 && b3[1..] == b4 && b2[1..] == b3 && Bounds[1..] == b2;
    assert CountAtMost(b5, tss) == (if 300.0 <= tss then 1 else 0);
    assert CountAtMost(b4, tss) == (if 200.0 <= tss then 1 else 0) + CountAtMost(b5, tss);
    assert CountAtMost(b3, tss) == (if 150.0 <= tss then 1 else 0) + CountAtMost(b4, tss);
    assert CountAtMost(b2, tss) == (if 100.0 <= tss then 1 else 0) + CountAtMost(b3, tss);
  }

  lemma ChainsFollowBand(tss: real)
    ensures TssColor(tss) == BandColours[Band(tss)]
    ensures IntensityLabel(tss) == BandLabels[Band(tss)]
  {
    CountOfBounds(tss);
  }

  /** The colour and the label always describe the same band, and a
      negative total falls in the Easy band. */
  lemma ColourMatchesLabel(a: real, b: real)
    ensures TssColor(a) == TssColor(b) <==> IntensityLabel(a) == IntensityLabel(b)
    ensures a < 0.0 ==> IntensityLabel(a) == "Easy"
  {
    ChainsFollowBand(a);
    ChainsFollowBand(b);
    var i, j := Band(a), Band(b);
    assert BandColours[i] == BandColours[j] <==> i == j;
    assert BandLabels[i] == BandLabels[j] <==> i == j;
    if a < 0.0 {
      assert CountAtMost(Bounds, a) == 0;
    }
  }

  /** Above zero, a larger total is never in a lower band. */
  lemma {:induction false} CountAtMostMonotone(bounds: seq<real>, x: real, y: real)
    requires x <= y
    ensures CountAtMost(bounds, x) <= CountAtMost(bounds, y)
  {
    if bounds != [] {
      CountAtMostMonotone(bounds[1..], x, y);
    }
  }

  lemma BandMonotone(x: real, y: real)
    requires 0.0 < x <= y
    ensures Band(x) <= Band(y)
  {
    CountAtMostMonotone(Bounds, x, y);
  }

  /** The legend's sample values show every band once at least, and its
      captions are the band labels in order. */
  const LegendSamples: seq<real> := [0.0, 25.0, 50.0, 75.0, 100.0, 150.0, 200.0, 300.0]
  const LegendCaptions: seq<string> := ["Rest", "Easy", "Moderate", "Hard", "Very Hard", "Extreme", "Overload"]

  /** Some legend square carries this label in its title. */
  predicate InLegend(caption: string) {
    exists k :: 0 <= k < |LegendSamples| && IntensityLabel(LegendSamples[k]) == caption
  }

  lemma LegendShowsEveryBand()
    ensures LegendCaptions == BandLabels
    ensures forall b :: 0 <= b < |BandLabels| ==> InLegend(BandLabels[b])
  {
    forall b | 0 <= b < |BandLabels|
      ensures InLegend(BandLabels[b])
    {
      var k := if b < 3 then b else b + 1;
      assert IntensityLabel(LegendSamples[k]) == BandLabels[b];
    }
  }

  // ---------------------------------------------------------------------
  // The calendar

  /** The weekday of a day number, Sunday 0 (`getDay`). */
  function Weekday(day: int): (w: int)
    ensures 0 <= w < 7
  {
    (day + 4) % 7
  }

  datatype Civil = Civil(year: int, month: int, day: int)

  /** The day number of a calendar date (month 1..12). */
  function DaysFromCivil(y: int, m: int, d: int): int
    requires 1 <= m <= 12
  {
    var y' := if m <= 2 then y - 1 else y;
    var era := y' / 400;
    var yoe := y' - era * 400;
    var mp := if m > 2 then m - 3 else m + 9;
    var doy := (153 * mp + 2) / 5 + d - 1;
    var doe := yoe * 365 + yoe / 4 - yoe / 100 + doy;
    era * 146097 + doe - 719468
  }

  /** The calendar date of a day number. */
  function CivilFromDays(z: int): Civil {
    var z' := z + 719468;
    var era := z' / 146097;
    var doe := z' - era * 146097;
    var yoe := (doe - doe / 1460 + doe / 36524 - doe / 146096) / 365;
    var doy := doe - (365 * yoe + yoe / 4 - yoe / 100);
    var mp := (5 * doy + 2) / 153;
    var d := doy - (153 * mp + 2) / 5 + 1;
    var m := if mp < 10 then mp + 3 else mp - 9;
    Civil(yoe + era * 400 + (if m <= 2 then 1 else 0), m, d)
  }

  /** `new Date(year, …)` reads a year from 0 to 99 as 1900 to 1999. */
  function FullYear(year: int): (y: int)
    ensures !(0 <= y <= 99)
    ensures y % 100 == year % 100
    ensures !(0 <= year <= 99) ==> y == year
  {
    if 0 <= year <= 99 then 1900 + year else year
  }

  /** The first of the selected month (month index 0..11). */
  function FirstOfMonth(year: int, month: int): int
    requires 0 <= month < 12
  {
    DaysFromCivil(FullYear(year), month + 1, 1)
  }

  datatype CalendarDay = CalendarDay(day: int, tss: real, isCurrentMonth: bool, dayOfMonth: int)

  /** Stepping back by the weekday lands on a Sunday at most six days
      earlier. */
  lemma SundayOnOrBefore(day: int)
    ensures Weekday(day - Weekday(day)) == 0
    ensures day - 6 <= day - Weekday(day) <= day
  {
  }

  /** `dailyTSS[dateStr] || 0`. */
  function TssOn(grouped: map<int, real>, day: int): (t: real)
    ensures day in grouped ==> t == grouped[day]
    ensures day !in grouped ==> t == 0.0
    ensures (forall d :: d in grouped ==> grouped[d] >= 0.0) ==> t >= 0.0
  {
    if day in grouped then grouped[day] else 0.0
  }

  /** A cell shows its day's total (zero when absent), whether the day lies
      in the selected month (0-based), and its day of the month. */
  predicate CellAgrees(grouped: map<int, real>, month: int, c: CalendarDay) {
    c.tss == TssOn(grouped, c.day)
    && c.isCurrentMonth == (CivilFromDays(c.day).month == month + 1)
    && c.dayOfMonth == CivilFromDays(c.day).day
  }

  /** `generateCalendarDays`: 42 consecutive days from the Sunday on or
      before the 1st, each with its total (zero when absent), whether it lies
      in the selected month, and its day of the month. */
  method GenerateCalendarDays(grouped: map<int, real>, year: int, month: int) returns (days: seq<CalendarDay>)
    requires 0 <= month < 12
    ensures |days| == 42
    ensures Weekday(days[0].day) == 0
    ensures days[0].day <= FirstOfMonth(year, month) < days[0].day + 7
    ensures days[Weekday(FirstOfMonth(year, month))].day == FirstOfMonth(year, month)
    ensures forall i :: 0 <= i < 42 ==> days[i].day == days[0].day + i
    ensures forall i :: 0 <= i < 42 ==> CellAgrees(grouped, month, days[i])
  {
    var firstDay := FirstOfMonth(year, month);
    var startDate := firstDay - Weekday(firstDay);
    days := [];
    var current := startDate;
    for i := 0 to 42
      invariant |days| == i && current == startDate + i
      invariant forall k :: 0 <= k < i ==> days[k].day == startDate + k
      invariant forall k :: 0 <= k < i ==> CellAgrees(grouped, month, days[k])
    {
      var civil := CivilFromDays(current);
      days := days + [CalendarDay(current, TssOn(grouped, current), civil.month == month + 1, civil.day)];
      current := current + 1;
    }
    WindowAroundFirst(days, firstDay, startDate);
  }

  /** Six weeks of consecutive days from the Sunday on or before the 1st
      start on a Sunday and hold the 1st at its weekday's index. */
  lemma WindowAroundFirst(days: seq<CalendarDay>, firstDay: int, startDate: int)
    requires startDate == firstDay - Weekday(firstDay)
    requires |days| == 42 && forall k :: 0 <= k < 42 ==> days[k].day == startDate + k
    ensures Weekday(days[0].day) == 0
    ensures days[0].day <= firstDay < days[0].day + 7
    ensures days[Weekday(firstDay)].day == firstDay
  {
    SundayOnOrBefore(firstDay);
  }


  // ---------------------------------------------------------------------
  // getAvailableYears

  function YearOf(day: int): int { CivilFromDays(day).year }

  /** The years of the dated items. */
  function YearSet(items: seq<TssItem>): set<int> {
    if items == [] then {}
    else
      var last := items[|items| - 1];
      YearSet(items[..|items| - 1]) + (if last.date.Some? then {YearOf(last.date.value)} else {})
  }

  function Descending(y: int): Key { Key(-y, 0) }

  lemma CountAtTwoIndices(s: seq<int>, i: int, j: int)
    requires 0 <= i < j < |s|
    ensures multiset(s)[s[i]] >= (if s[i] == s[j] then 2 else 1)
  {
    assert s == s[..j] + s[j..];
    assert s[..j][i] == s[i];
    assert s[j..][0] == s[j];
    assert multiset(s)[s[i]] == multiset(s[..j])[s[i]] + multiset(s[j..])[s[i]];
  }

  lemma DistinctByCount(s: seq<int>, i: int, j: int)
    requires forall x :: x in multiset(s) ==> multiset(s)[x] == 1
    requires 0 <= i < j < |s|
    ensures s[i] != s[j]
  {
    CountAtTwoIndices(s, i, j);
  }

  lemma {:induction false} CountOfDistinct(s: seq<int>)
    requires forall i, j :: 0 <= i < j < |s| ==> s[i] != s[j]
    ensures forall x :: x in multiset(s) ==> multiset(s)[x] == 1
  {
    if s != [] {
      var p := s[..|s| - 1];
      CountOfDistinct(p);
      assert s == p + [s[|s| - 1]];
      assert s[|s| - 1] !in p;
    }
  }

  /** `getAvailableYears`: every year some dated item falls in, once each,
      newest first. */
  method GetAvailableYears(items: seq<TssItem>) returns (years: seq<int>)
    ensures forall i, j :: 0 <= i < j < |years| ==> years[i] > years[j]
    ensures forall y :: y in years <==> y in YearSet(items)
  {
    var seen: seq<int> := [];
    var i := 0;
    while i < |items|
      invariant 0 <= i <= |items|
      invariant forall y :: y in seen <==> y in YearSet(items[..i])
      invariant forall a, b :: 0 <= a < b < |seen| ==> seen[a] != seen[b]
    {
      assert items[..i + 1][..i] == items[..i];
      if items[i].date.Some? {
        var year := YearOf(items[i].date.value);
        if year !in seen {
          seen := seen + [year];
        }
      }
      i := i + 1;
    }
    assert items[..|items|] == items;
    CountOfDistinct(seen);
    years := SortBy(seen, Descending);
    forall y
      ensures y in years <==> y in seen
    {
      assert y in years <==> y in multiset(years);
      assert y in seen <==> y in multiset(seen);
    }
    forall a, b | 0 <= a < b < |years|
      ensures years[a] > years[b]
    {
      DistinctByCount(years, a, b);
    }
  }

  // ---------------------------------------------------------------------
  // The monthly summary

  /** No day of the selected month has any stress. */
  ghost predicate Quiet(days: seq<CalendarDay>) {
    forall i :: 0 <= i < |days| ==> !(days[i].isCurrentMonth && days[i].tss > 0.0)
  }

  /** No day lies in the selected month. */
  ghost predicate OutsideMonth(days: seq<CalendarDay>) {
    forall i :: 0 <= i < |days| ==> !days[i].isCurrentMonth
  }

  /** Days in the selected month with some stress. */
  function ActiveDays(days: seq<CalendarDay>): (n: nat)
    ensures n <= |days|
    ensures n == 0 <==> Quiet(days)
  {
    if days == [] then 0
    else
      assert forall i :: 1 <= i < |days| ==> days[i] == days[1..][i - 1];
      (if days[0].isCurrentMonth && days[0].tss > 0.0 then 1 else 0) + ActiveDays(days[1..])
  }

  /** The summed stress of the month's days. */
  function MonthTotal(days: seq<CalendarDay>): real
  {
    if days == [] then 0.0
    else (if days[0].isCurrentMonth then days[0].tss else 0.0) + MonthTotal(days[1..])
  }

  /** With no negative day the month's total is not negative. */
  lemma {:induction false} MonthTotalNonNegative(days: seq<CalendarDay>)
    requires NoNegative(days)
    ensures MonthTotal(days) >= 0.0
  {
    if days != [] {
      assert forall i :: 1 <= i < |days| ==> days[i] == days[1..][i - 1];
      MonthTotalNonNegative(days[1..]);
    }
  }

  /** Days outside the selected month add nothing to its total. */
  lemma {:induction false} MonthTotalOutsideMonth(days: seq<CalendarDay>)
    requires OutsideMonth(days)
    ensures MonthTotal(days) == 0.0
  {
    if days != [] {
      assert forall i :: 1 <= i < |days| ==> days[i] == days[1..][i - 1];
      MonthTotalOutsideMonth(days[1..]);
    }
  }

  /** The month's average: the total over the active days, at least one. */
  function MonthAverage(days: seq<CalendarDay>): (a: real)
    ensures Divisor(days) == 1.0 ==> a == MonthTotal(days)
    ensures NoNegative(days) ==> a >= 0.0
  {
    assert NoNegative(days) ==> MonthTotal(days) >= 0.0 by {
      if NoNegative(days) {
        MonthTotalNonNegative(days);
      }
    }
    MonthTotal(days) / Divisor(days)
  }

  /** The month's largest total; `None` (negative infinity) with no day in
      the month. */
  function MonthMax(days: seq<CalendarDay>): (m: Option<real>)
    ensures m.None? <==> forall i :: 0 <= i < |days| ==> !days[i].isCurrentMonth
    ensures m.Some? ==> forall i :: 0 <= i < |days| && days[i].isCurrentMonth ==> days[i].tss <= m.value
    ensures m.Some? ==> exists i :: 0 <= i < |days| && days[i].isCurrentMonth && days[i].tss == m.value
  {
    if days == [] then None
    else
      var rest := MonthMax(days[1..]);
      assert forall i :: 1 <= i < |days| ==> days[i] == days[1..][i - 1];
      if !days[0].isCurrentMonth then rest
      else if rest.None? || rest.value < days[0].tss then Some(days[0].tss)
      else rest
  }

  predicate NoNegative(days: seq<CalendarDay>) {
    forall i :: 0 <= i < |days| ==> days[i].tss >= 0.0
  }

  lemma TotalAtMostActiveTimesMax(days: seq<CalendarDay>, m: real)
    requires NoNegative(days) && m >= 0.0
    requires forall i :: 0 <= i < |days| && days[i].isCurrentMonth ==> days[i].tss <= m
    ensures MonthTotal(days) <= Times(ActiveDays(days), m)
  {
    TotalAtMostCapacity(days, m);
    CapacityIsActiveTimesMax(days, m);
  }

  /** `m` for every active day of the month, summed. */
  function Capacity(days: seq<CalendarDay>, m: real): real
  {
    if days == [] then 0.0
    else (if days[0].isCurrentMonth && days[0].tss > 0.0 then m else 0.0) + Capacity(days[1..], m)
  }

  lemma {:induction false} TotalAtMostCapacity(days: seq<CalendarDay>, m: real)
    requires NoNegative(days)
    requires forall i :: 0 <= i < |days| && days[i].isCurrentMonth ==> days[i].tss <= m
    ensures MonthTotal(days) <= Capacity(days, m)
  {
    if days != [] {
      assert forall i :: 1 <= i < |days| ==> days[i] == days[1..][i - 1];
      TotalAtMostCapacity(days[1..], m);
    }
  }

  /** `n` copies of `m`, added up. */
  function Times(n: nat, m: real): real {
    if n == 0 then 0.0 else m + Times(n - 1, m)
  }

  lemma {:induction false} TimesIsProduct(n: nat, m: real)
    ensures Times(n, m) == n as real * m
  {
    if n > 0 {
      TimesIsProduct(n - 1, m);
      assert n as real * m == m + (n - 1) as real * m;
    }
  }

  lemma {:induction false} CapacityIsActiveTimesMax(days: seq<CalendarDay>, m: real)
    ensures Capacity(days, m) == Times(ActiveDays(days), m)
  {
    if days != [] {
      CapacityIsActiveTimesMax(days[1..], m);
    }
  }

  /** The divisor of the average: the active days, at least one. */
  function Divisor(days: seq<CalendarDay>): (n: real)
    ensures n >= 1.0
  {
    (if ActiveDays(days) > 1 then ActiveDays(days) else 1) as real
  }

  lemma QuotientAtMost(total: real, active: nat, n: real, m: real)
    requires active as real <= n && n >= 1.0 && m >= 0.0 && total <= Times(active, m)
    ensures total / n <= m
  {
    TimesIsProduct(active, m);
    assert active as real * m <= n * m;
    assert total / n * n == total;
  }

  lemma {:induction false} NoActiveDayNoTotal(days: seq<CalendarDay>)
    requires NoNegative(days) && ActiveDays(days) == 0
    ensures MonthTotal(days) == 0.0
  {
    if days != [] {
      assert forall i :: 1 <= i < |days| ==> days[i] == days[1..][i - 1];
      NoActiveDayNoTotal(days[1..]);
    }
  }

  /** With no negative totals a month without active days averages zero. */
  lemma QuietMonthAveragesZero(days: seq<CalendarDay>)
    requires NoNegative(days) && ActiveDays(days) == 0
    ensures MonthAverage(days) == 0.0
  {
    NoActiveDayNoTotal(days);
  }

  /** With no negative totals the average never exceeds the month's
      maximum. */
  lemma AverageAtMostMax(days: seq<CalendarDay>)
    requires NoNegative(days) && MonthMax(days).Some?
    ensures MonthAverage(days) <= MonthMax(days).value
  {
    MaxNotNegative(days);
    AverageAtMostBound(days, MonthMax(days).value);
  }

  lemma MaxNotNegative(days: seq<CalendarDay>)
    requires NoNegative(days) && MonthMax(days).Some?
    ensures MonthMax(days).value >= 0.0
  {
    var i :| 0 <= i < |days| && days[i].isCurrentMonth && days[i].tss == MonthMax(days).value;
  }

  /** The average is at most any bound on the month's totals. */
  lemma AverageAtMostBound(days: seq<CalendarDay>, m: real)
    requires NoNegative(days) && m >= 0.0
    requires forall i :: 0 <= i < |days| && days[i].isCurrentMonth ==> days[i].tss <= m
    ensures MonthAverage(days) <= m
  {
    TotalAtMostActiveTimesMax(days, m);
    QuotientAtMost(MonthTotal(days), ActiveDays(days), Divisor(days), m);
  }
}
