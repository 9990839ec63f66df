/**
  The fitness-metrics chart: the time window applied to the daily metrics,
  the colour of the training stress balance (TSB) and the tooltip text of
  each series. A metric's date is the day number of its UTC midnight; the
  current instant is a parameter.
*/
module FitnessMetricsChart {
  import opened Wrappers
  import PlanUtils
  import Text

  datatype Metric = Metric(date: int, totalTss: real, cyclingTss: real, runningTss: real,
                           swimmingTss: real, otherTss: real, ctl: real, atl: real, tsb: real)

  // ---------------------------------------------------------------------
  // getFilteredData

  datatype TimeRange = Last30 | Last90 | Last365 | AllTime

  /** The selector's value for each range: `'30'`, `'90'`, `'365'`, `'all'`. */
  function RangeValue(range: TimeRange): string {
    match range
    case Last30 => "30"
    case Last90 => "90"
    case Last365 => "365"
    case AllTime => "all"
  }

  /** `parseInt(timeRange)` for the three numeric ranges. */
  function RangeDays(range: TimeRange): (n: nat)
    requires !range.AllTime?
    ensures Text.ParseInt(RangeValue(range)) == Some(n as int)
    ensures 30 <= n <= 365
  {
    match range
    case Last30 =>
      assert Text.NatToString(30) == "30";
      Text.ParseIntOfNatToString(30);
      30
    case Last90 =>
      assert Text.NatToString(90) == "90";
      Text.ParseIntOfNatToString(90);
      90
    case Last365 =>
      assert Text.NatToString(365) == "365";
      Text.ParseIntOfNatToString(365);
      365
  }

  /** The cutoff instant, in days: now moved back by whole days, keeping the
      time of day. */
  function Cutoff(now: PlanUtils.Now, days: nat): (c: real)
    ensures c + days as real == now.day as real + now.time
    ensures (now.day - days) as real <= c < (now.day - days + 1) as real
  {
    (now.day - days) as real + now.time
  }

  /** The metrics whose midnight is not before the cutoff, in their order. */
  function Since(metrics: seq<Metric>, cutoff: real): (r: seq<Metric>)
    ensures |r| <= |metrics|
    ensures forall i :: 0 <= i < |r| ==> r[i].date as real >= cutoff
    ensures forall i :: 0 <= i < |metrics| && metrics[i].date as real >= cutoff ==> metrics[i] in r
    ensures forall x :: x in r ==> x in metrics
  {
    if metrics == [] then []
    else
      var rest := Since(metrics[1..], cutoff);
      assert forall i :: 1 <= i < |metrics| ==> metrics[i] == metrics[1..][i - 1];
      if metrics[0].date as real >= cutoff then [metrics[0]] + rest else rest
  }

  /** `getFilteredData`. */
  function FilteredData(metrics: seq<Metric>, range: TimeRange, now: PlanUtils.Now): (r: seq<Metric>)
    ensures range.AllTime? ==> r == metrics
    ensures !range.AllTime? ==> r == Since(metrics, Cutoff(now, RangeDays(range)))
  {
    if range.AllTime? then metrics
    else Since(metrics, Cutoff(now, RangeDays(range)))
  }

  /** The window keeps order: filtering a concatenation filters each part. */
  lemma {:induction false} SinceAppend(a: seq<Metric>, b: seq<Metric>, cutoff: real)
    ensures Since(a + b, cutoff) == Since(a, cutoff) + Since(b, cutoff)
  {
    if a == [] {
      assert a + b == b;
    } else {
      assert (a + b)[1..] == a[1..] + b;
      SinceAppend(a[1..], b, cutoff);
    }
  }

  /** In whole days: the metric of the day exactly N days back is kept only
      when now is a midnight; any later day is kept, any earlier one not. */
  lemma CutoffInDays(m: Metric, now: PlanUtils.Now, days: nat)
    ensures now.time == 0.0 ==> (m.date as real >= Cutoff(now, days) <==> m.date >= now.day - days)
    ensures now.time > 0.0 ==> (m.date as real >= Cutoff(now, days) <==> m.date > now.day - days)
  {
  }

  /** A later cutoff applied after an earlier one is the later cutoff alone. */
  lemma {:induction false} SinceNested(metrics: seq<Metric>, early: real, late: real)
    requires early <= late
    ensures Since(Since(metrics, early), late) == Since(metrics, late)
  {
    if metrics != [] {
      SinceNested(metrics[1..], early, late);
    }
  }

  /** The shorter windows lie inside the longer ones: 30 days are the last
      30 days of the 90, and those of the 365. */
  lemma WindowsNest(metrics: seq<Metric>, now: PlanUtils.Now)
    ensures FilteredData(metrics, Last30, now) == Since(FilteredData(metrics, Last90, now), Cutoff(now, 30))
    ensures FilteredData(metrics, Last90, now) == Since(FilteredData(metrics, Last365, now), Cutoff(now, 90))
    ensures FilteredData(metrics, Last365, now) == Since(FilteredData(metrics, AllTime, now), Cutoff(now, 365))
  {
    SinceNested(metrics, Cutoff(now, 90), Cutoff(now, 30));
    SinceNested(metrics, Cutoff(now, 365), Cutoff(now, 90));
  }

  // ---------------------------------------------------------------------
  // getTSBColor

  function TsbColor(tsb: real): (c: string)
    ensures c == TsbColours[Strain(tsb)]
  {
    StrainByBounds(tsb);
    if tsb > 25.0 then "#10b981"
    else if tsb > 5.0 then "#3b82f6"
    else if tsb > -10.0 then "#8b5cf6"
    else if tsb > -30.0 then "#f59e0b"
    else "#ef4444"
  }

  /** Peaked, fresh, optimal, productive, overreached. */
  const TsbColours: seq<string> := ["#10b981", "#3b82f6", "#8b5cf6", "#f59e0b", "#ef4444"]
  const TsbBounds: seq<real> := [25.0, 5.0, -10.0, -30.0]

  /** How many bounds the balance does not exceed. */
  function CountNotAbove(bounds: seq<real>, tsb: real): (n: nat)
    ensures n <= |bounds|
  {
    if bounds == [] then 0
    else (if tsb <= bounds[0] then 1 else 0) + CountNotAbove(bounds[1..], tsb)
  }

  /** The reference band: 0 (peaked) to 4 (overreached). */
  function Strain(tsb: real): (k: nat)
    ensures k < |TsbColours|
  {
    CountNotAbove(TsbBounds, tsb)
  }

  lemma StrainByBounds(tsb: real)
    ensures Strain(tsb) ==
      (if tsb > 25.0 then 0 else if tsb > 5.0 then 1 else if tsb > -10.0 then 2
       else if tsb > -30.0 then 3 else 4)
  {
    var b4: seq<real> := [-30.0];
    var b3: seq<real> := [-10.0] + b4;
    var b2: seq<real> := [5.0] + b3;
    assert TsbBounds == [25.0] + b2;
    assert b4[1..] == [] && b3[1..] == b4 && b2[1..] == b3 && TsbBounds[1..] == b2;
    assert CountNotAbove(b4, tsb) == (if tsb <= -30.0 then 1 else 0);
    assert CountNotAbove(b3, tsb) == (if tsb <= -10.0 then 1 else 0) + CountNotAbove(b4, tsb);
    assert CountNotAbove(b2, tsb) == (if tsb <= 5.0 then 1 else 0) + CountNotAbove(b3, tsb);
  }

  /** Every balance gets the colour of its band, and a lower balance is
      never in a less strained band. */
  lemma TsbColorByStrain(x: real, y: real)
    ensures TsbColor(x) == TsbColours[Strain(x)]
    ensures x <= y ==> Strain(y) <= Strain(x)
  {
    StrainByBounds(x);
    StrainByBounds(y);
  }

  // ---------------------------------------------------------------------
  // formatTooltip

  /** A formatted tooltip: `value.toFixed(digits)` and a unit, or the
      value's plain string. */
  datatype Tooltip = Fixed(value: real, digits: nat, unit: string) | Plain(value: real)

  /** The series with a formatter: name, digits, unit. */
  const Formatters: seq<(string, nat, string)> := [
    ("ctl", 1, "CTL"), ("atl", 1, "ATL"), ("tsb", 1, "TSB"),
    ("total_tss", 0, "TSS"), ("cycling_tss", 0, "TSS"), ("running_tss", 0, "TSS"),
    ("swimming_tss", 0, "TSS"), ("other_tss", 0, "TSS")
  ]

  function Lookup(table: seq<(string, nat, string)>, name: string): (r: Option<(nat, string)>)
    ensures r.None? <==> forall i :: 0 <= i < |table| ==> table[i].0 != name
    ensures r.Some? ==> exists i :: 0 <= i < |table| && table[i] == (name, r.value.0, r.value.1)
  {
    if table == [] then None
    else if table[0].0 == name then Some((table[0].1, table[0].2))
    else
      var r := Lookup(table[1..], name);
      assert forall i :: 1 <= i < |table| ==> table[i] == table[1..][i - 1];
      if r.Some? then
        var i :| 0 <= i < |table[1..]| && table[1..][i] == (name, r.value.0, r.value.1);
        assert table[i + 1] == table[1..][i];
        r
      else r
  }

  /** `formatTooltip`: a known series uses its formatter; any other name
      shows the plain value. */
  function FormatTooltip(value: real, name: string): (t: Tooltip)
    ensures t.value == value
    ensures t.Plain? <==> forall i :: 0 <= i < |Formatters| ==> Formatters[i].0 != name
    ensures t.Fixed? ==> exists i :: 0 <= i < |Formatters| && Formatters[i] == (name, t.digits, t.unit)
  {
    match Lookup(Formatters, name)
    case None => Plain(value)
    case Some((digits, unit)) => Fixed(value, digits, unit)
  }

  /** The names in the formatter table are distinct, so a name has one
      formatter. */
  lemma FormatterNamesDistinct()
    ensures forall i, j :: 0 <= i < j < |Formatters| ==> Formatters[i].0 != Formatters[j].0
  {
  }

  /** Called with the key "ctl", the formatter shows one decimal. */
  lemma LoadTooltip(value: real)
    ensures FormatTooltip(value, "ctl") == Fixed(value, 1, "CTL")
  {
  }

  /** Called with the key "running_tss", the formatter shows a whole number. */
  lemma StressTooltip(value: real)
    ensures FormatTooltip(value, "running_tss") == Fixed(value, 0, "TSS")
  {
    LookupFinds(Formatters, "running_tss", 5);
  }

  /** A name outside the table shows the plain value. */
  lemma UnknownTooltip(value: real)
    ensures FormatTooltip(value, "pace") == Plain(value)
  {
    assert forall i :: 0 <= i < |Formatters| ==> Formatters[i].0 != "pace";
  }

  /** The `name` props the charts give their series (the load chart's three
      lines, then the stress chart's four areas). */
  const SeriesDisplayNames: seq<string> := [
    "CTL (Fitness)", "ATL (Fatigue)", "TSB (Form)",
    "Cycling TSS", "Running TSS", "Swimming TSS", "Other TSS"
  ]

  /** None of the display names is a key of the formatter table: called with
      a display name, the formatter shows the plain value. */
  lemma DisplayNamesShowPlain(value: real)
    ensures forall i :: 0 <= i < |SeriesDisplayNames| ==> FormatTooltip(value, SeriesDisplayNames[i]) == Plain(value)
  {
    forall i | 0 <= i < |SeriesDisplayNames|
      ensures FormatTooltip(value, SeriesDisplayNames[i]) == Plain(value)
    {
      var n := SeriesDisplayNames[i];
      assert 'A' <= n[0] <= 'Z';
      assert forall j :: 0 <= j < |Formatters| ==> Formatters[j].0 != n by {
        forall j | 0 <= j < |Formatters| ensures Formatters[j].0 != n {
          assert 'a' <= Formatters[j].0[0] <= 'z';
        }
      }
    }
  }

  /** The lookup returns the first entry with the name. */
  lemma {:induction false} LookupFinds(table: seq<(string, nat, string)>, name: string, k: nat)
    requires k < |table| && table[k].0 == name
    requires forall i :: 0 <= i < k ==> table[i].0 != name
    ensures Lookup(table, name) == Some((table[k].1, table[k].2))
  {
    if k > 0 {
      assert table[0].0 != name;
      assert table[1..][k - 1] == table[k];
      LookupFinds(table[1..], name, k - 1);
    }
  }
}
