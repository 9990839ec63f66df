/**
  The Strava display formatters: an activity's duration in hours and
  minutes, and an elevation in whole metres. Durations are whole seconds.
*/
module Strava {
  import opened Wrappers
  import opened Text
  import opened Numbers

  /** JavaScript's `%` for a positive divisor: the remainder takes the sign
      of the dividend. */
  function JsRem(a: int, b: int): (r: int)
    requires b > 0
    ensures a >= 0 ==> 0 <= r < b && r == a % b
    ensures a < 0 ==> -b < r <= 0
  {
    if a >= 0 then a % b else -((-a) % b)
  }

  /** The hours and minutes `formatTime` shows: `Math.floor(s / 3600)` and
      `Math.floor((s % 3600) / 60)`. */
  function TimeParts(seconds: int): (hm: (int, int))
    ensures seconds >= 0 ==> hm.0 >= 0 && 0 <= hm.1 <= 59
    ensures seconds >= 0 ==> hm.0 * 3600 + hm.1 * 60 <= seconds < hm.0 * 3600 + hm.1 * 60 + 60
    ensures seconds < 0 ==> hm.0 < 0
  {
    (seconds / 3600, JsRem(seconds, 3600) / 60)
  }

  /** "Hh Mm" when there is at least one hour, else "Mm". */
  function DurationLabel(hours: int, minutes: int): string {
    if hours > 0 then IntToString(hours) + "h " + IntToString(minutes) + "m"
    else IntToString(minutes) + "m"
  }

  /** `formatTime`: the label of the whole hours and minutes; leftover
      seconds are dropped. For a non-negative duration the label reads back
      to those hours and minutes. */
  function FormatTime(seconds: int): (r: string)
    ensures seconds >= 0 ==> ParseTime(r) == Some(TimeParts(seconds))
  {
    var (hours, minutes) := TimeParts(seconds);
    var r := DurationLabel(hours, minutes);
    assert seconds >= 0 ==> ParseTime(r) == Some((hours, minutes)) by {
      if seconds >= 0 {
        DurationLabelReadsBack(hours, minutes);
      }
    }
    r
  }

  /** Reads a duration label back to hours and minutes. */
  function ParseTime(s: string): Option<(int, int)> {
    match ReadInt(s)
    case None => None
    case Some((n, rest)) =>
      if rest == "m" then Some((0, n))
      else if StartsWith(rest, "h ") then
        match ReadInt(rest[2..])
        case Some((k, tail)) => if tail == "m" then Some((n, k)) else None
        case None => None
      else None
  }

  /** A label of non-negative hours and minutes reads back to them. */
  lemma DurationLabelReadsBack(hours: int, minutes: int)
    requires hours >= 0 && minutes >= 0
    ensures ParseTime(DurationLabel(hours, minutes)) == Some((hours, minutes))
  {
    if hours > 0 {
      HoursLabelReadsBack(hours, minutes);
    } else {
      ReadIntToString(minutes, "m");
    }
  }

  lemma HoursLabelReadsBack(hours: int, minutes: int)
    requires hours > 0 && minutes >= 0
    ensures ParseTime(IntToString(hours) + "h " + IntToString(minutes) + "m") == Some((hours, minutes))
  {
    var tail := IntToString(minutes) + "m";
    var rest := "h " + tail;
    assert IntToString(hours) + "h " + IntToString(minutes) + "m" == IntToString(hours) + rest;
    ReadIntToString(hours, rest);
    assert rest != "m" && StartsWith(rest, "h ") && rest[2..] == tail;
    ReadIntToString(minutes, "m");
  }

  /** For a non-negative duration the label gives back the hours and
      minutes, the hours part appears exactly when there is a whole hour,
      and together they are the whole minutes of the duration. */
  lemma FormatTimeRoundTrip(seconds: int)
    requires seconds >= 0
    ensures ParseTime(FormatTime(seconds)) == Some(TimeParts(seconds))
    ensures TimeParts(seconds).0 * 60 + TimeParts(seconds).1 == seconds / 60
    ensures Contains(FormatTime(seconds), "h ") <==> seconds >= 3600
  {
    var (hours, minutes) := TimeParts(seconds);
    var s := FormatTime(seconds);
    if hours > 0 {
      assert s == IntToString(hours) + "h " + IntToString(minutes) + "m";
      assert OccursAt(s, "h ", |IntToString(hours)|);
    } else {
      assert s == IntToString(minutes) + "m";
      assert IntToString(minutes) + "m" == NatToString(minutes) + "m";
      NoHourMark(NatToString(minutes));
    }
    assert seconds / 60 == hours * 60 + minutes by {
      assert seconds == hours * 3600 + (seconds % 3600);
      assert minutes == (seconds % 3600) / 60;
    }
  }

  /** Digits followed by "m" contain no "h ". */
  lemma NoHourMark(d: string)
    requires AllDigits(d)
    ensures !Contains(d + "m", "h ")
  {
    var t := d + "m";
    forall i | 0 <= i <= |t| - 2
      ensures !OccursAt(t, "h ", i)
    {
      assert t[i] == d[i];
      assert t[i..i + 2][0] == t[i];
    }
  }

  /** A negative duration shows only minutes, rounded down: the
      remainder keeps the minus sign before the minutes are floored. */
  lemma NegativeDuration()
    ensures FormatTime(-30) == "-1m"
    ensures FormatTime(-3600) == "0m"
  {
    assert JsRem(-30, 3600) == -30;
    assert NatToString(1) == "1";
  }

  /** `formatElevation`: the nearest whole metre (halves up) and " m". */
  function FormatElevation(meters: real): (r: string)
    ensures ReadInt(r) == Some((Round(meters), " m"))
  {
    ReadIntToString(Round(meters), " m");
    IntToString(Round(meters)) + " m"
  }

  /** The label reads back as the rounded value, within half a metre of
      the elevation, followed by the unit. */
  lemma FormatElevationReadsBack(meters: real)
    ensures ReadInt(FormatElevation(meters)) == Some((Round(meters), " m"))
    ensures Round(meters) as real - 0.5 <= meters < Round(meters) as real + 0.5
  {
    ReadIntToString(Round(meters), " m");
  }
}
