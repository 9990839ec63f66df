/**
  The fitness-insights card: loading the AI-written insight text for a time
  period, and turning that text into headings, bullet items and paragraphs
  line by line. The insights request is an event: its answer arrives as a
  method call.
*/
module FitnessInsights {
  import opened Wrappers
  import opened Text
  import opened Sorting
  import opened Sessions

  // ---------------------------------------------------------------------
  // formatInsights

  /** The element one line becomes. */
  datatype Insight = Heading(text: string) | BulletItem(text: string) | ParagraphItem(text: string)

  /** `/^\d+\./`: one or more digits and then a full stop. */
  predicate NumberedHeading(t: string) {
    var k := DigitRun(t);
    0 < k < |t| && t[k] == '.'
  }

  predicate IsBulletMark(c: char) { c == '•' || c == '-' }

  /** The element for a trimmed, non-empty line: the heading test comes
      first, then the bullet test, then a paragraph. */
  function Classify(t: string): (r: Insight)
    requires t != [] && Trim(t) == t
    ensures Trim(r.text) == r.text
    ensures r.Heading? <==> NumberedHeading(t)
    ensures r.BulletItem? <==> IsBulletMark(t[0])
    ensures r.BulletItem? ==> r.text == Trim(t[1..])
    ensures !r.BulletItem? ==> r.text == t
  {
    if NumberedHeading(t) then Heading(t)
    else if IsBulletMark(t[0]) then
      var rest := Trim(t[1..]);
      assert Trim(rest) == rest by { TrimIdempotent(t[1..]); }
      BulletItem(rest)
    else ParagraphItem(t)
  }

  /** The callback of the `map`: `null` for a blank line. */
  function FormatLine(line: string): (r: Option<Insight>)
    ensures r.None? <==> IsBlank(line)
    ensures r.Some? ==> Trim(r.value.text) == r.value.text
    ensures r.Some? ==> (r.value.Heading? <==> NumberedHeading(Trim(line)))
    ensures r.Some? ==> (r.value.BulletItem? <==> IsBulletMark(Trim(line)[0]))
    ensures r.Some? && r.value.BulletItem? ==> r.value.text == Trim(Trim(line)[1..])
    ensures r.Some? && !r.value.BulletItem? ==> r.value.text == Trim(line) && r.value.text != []
  {
    var trimmed := Trim(line);
    if trimmed == [] then None
    else
      TrimIdempotent(line);
      Some(Classify(trimmed))
  }

  function FormatLines(lines: seq<string>): (r: seq<Option<Insight>>)
    ensures |r| == |lines|
  {
    if lines == [] then [] else [FormatLine(lines[0])] + FormatLines(lines[1..])
  }

  /** `.filter(Boolean)`: every element is truthy, every `null` is not. */
  function Compact(xs: seq<Option<Insight>>): (r: seq<Insight>)
    ensures |r| <= |xs|
  {
    if xs == [] then []
    else (if xs[0].Some? then [xs[0].value] else []) + Compact(xs[1..])
  }

  /** `formatInsights`: the non-blank lines, each classified by its trimmed
      text, in order. */
  function FormatInsights(text: string): (r: seq<Insight>)
    ensures r == ClassifyAll(Filter(Split(text, '\n'), KeepLine))
    ensures |r| == |Filter(Split(text, '\n'), KeepLine)|
  {
    FormatLinesThenCompact(Split(text, '\n'));
    Compact(FormatLines(Split(text, '\n')))
  }

  /** The line filter the blank test amounts to. */
  function KeepLine(line: string): bool { !IsBlank(line) }

  /** The reference reading: drop the blank lines, then classify each of the
      others by its trimmed text. */
  function ClassifyAll(lines: seq<string>): (r: seq<Insight>)
    requires forall i :: 0 <= i < |lines| ==> KeepLine(lines[i])
    ensures |r| == |lines|
  {
    if lines == [] then []
    else [ClassifyKept(lines[0])] + ClassifyAll(lines[1..])
  }

  /** One kept line, classified by its trimmed text. */
  function ClassifyKept(line: string): Insight
    requires KeepLine(line)
  {
    TrimIdempotent(line);
    Classify(Trim(line))
  }

  lemma {:induction false} FormatLinesThenCompact(lines: seq<string>)
    ensures Compact(FormatLines(lines)) == ClassifyAll(Filter(lines, KeepLine))
  {
    if lines != [] {
      FormatLinesThenCompact(lines[1..]);
      assert FormatLines(lines)[1..] == FormatLines(lines[1..]);
    }
  }

  /** A heading starts with a digit and a bullet with its mark, so the order
      of the two tests never decides anything. */
  lemma HeadingAndBulletExclusive(t: string)
    requires NumberedHeading(t)
    ensures !IsBulletMark(t[0])
  {
  }

  /** A line written as a negative number is a bullet: its minus sign is
      read as the mark and dropped. */
  lemma MinusNumberIsBullet()
    ensures FormatLine("-3. Rest day") == Some(BulletItem("3. Rest day"))
  {
    var t := "-3. Rest day";
    assert t[1..] == "3. Rest day";
    MarkedLineIsBullet(t);
  }

  /** A line that opens with a bullet mark, has more than the mark, and has
      no space at either end of it or of what follows the mark is a bullet
      holding the rest of the line. */
  lemma MarkedLineIsBullet(t: string)
    requires |t| >= 2 && IsBulletMark(t[0]) && !IsSpace(t[1]) && !IsSpace(t[|t| - 1])
    ensures FormatLine(t) == Some(BulletItem(t[1..]))
  {
    TrimOfTrimmed(t);
    TrimOfTrimmed(t[1..]);
    assert DigitRun(t) == 0;
    assert !NumberedHeading(t);
  }

  // ---------------------------------------------------------------------
  // loadInsights

  datatype Period = Week | Month | Year

  datatype InsightsRequest = InsightsRequest(userId: string, timePeriod: Period)

  const AuthRequired := "Authentication required"
  const LoadFailed := "Failed to load insights"

  /** What the card shows below its header. */
  datatype View = Spinner | Formatted(items: seq<Insight>) | NothingYet

  function Render(isLoading: bool, insights: string): (v: View)
    ensures isLoading <==> v.Spinner?
    ensures v.Formatted? <==> !isLoading && insights != ""
    ensures v.Formatted? ==> v.items == FormatInsights(insights)
  {
    if isLoading then Spinner
    else if insights != "" then Formatted(FormatInsights(insights))
    else NothingYet
  }

  class InsightsPanel {
    var insights: string
    var timePeriod: Period
    var isLoading: bool
    var error: Option<string>
    /** The requests sent, and how many have not answered. */
    var requests: seq<InsightsRequest>
    var pending: nat

    /** The spinner is shown only while some request is outstanding; an
        earlier request's answer can hide it while a later one still runs. */
    predicate Valid()
      reads this
    {
      isLoading ==> pending > 0
    }

    constructor()
      ensures Valid()
      ensures insights == "" && timePeriod == Month && !isLoading && error.None?
      ensures requests == [] && pending == 0
    {
      insights := "";
      timePeriod := Month;
      isLoading := false;
      error := None;
      requests := [];
      pending := 0;
    }

    /** `loadInsights` up to its request: nothing without a user, an error
        without a user id, otherwise one request for the current period. */
    method LoadInsights(session: Session)
      requires Valid()
      modifies this
      ensures Valid()
      ensures session.user.None? ==>
        error == old(error) && isLoading == old(isLoading) && requests == old(requests) && pending == old(pending)
      ensures session.user.Some? && !StringTruthy(UserIdOf(session.user.value)) ==>
        error == Some(AuthRequired) && isLoading == old(isLoading)
        && requests == old(requests) && pending == old(pending)
      ensures session.user.Some? && StringTruthy(UserIdOf(session.user.value)) ==>
        isLoading && error.None? && pending == old(pending) + 1
        && requests == old(requests) + [InsightsRequest(UserIdOf(session.user.value).value, timePeriod)]
      ensures insights == old(insights) && timePeriod == old(timePeriod)
    {
      if session.user.None? {
        return;
      }
      var userId := UserIdOf(session.user.value);
      if !StringTruthy(userId) {
        error := Some(AuthRequired);
        return;
      }
      isLoading := true;
      error := None;
      requests := requests + [InsightsRequest(userId.value, timePeriod)];
      pending := pending + 1;
    }

    /** Picking another period reloads for it; picking the same one changes
        nothing. The selector is disabled while loading. */
    method SelectPeriod(p: Period, session: Session)
      requires Valid() && !isLoading
      modifies this
      ensures Valid()
      ensures timePeriod == p && insights == old(insights)
      ensures p == old(timePeriod) ==>
        requests == old(requests) && error == old(error) && isLoading == old(isLoading) && pending == old(pending)
      ensures p != old(timePeriod) && session.user.Some? && StringTruthy(UserIdOf(session.user.value)) ==>
        requests == old(requests) + [InsightsRequest(UserIdOf(session.user.value).value, p)]
    {
      if p != timePeriod {
        timePeriod := p;
        LoadInsights(session);
      }
    }

    /** A request answers with the insight text. */
    method OnInsightsOk(text: string)
      requires Valid() && pending > 0
      modifies this
      ensures Valid()
      ensures insights == text && !isLoading && pending == old(pending) - 1
      ensures error == old(error) && timePeriod == old(timePeriod) && requests == old(requests)
    {
      insights := text;
      isLoading := false;
      pending := pending - 1;
    }

    /** A request fails: its message, or the default; the old insights stay. */
    method OnInsightsErr(message: Option<string>)
      requires Valid() && pending > 0
      modifies this
      ensures Valid()
      ensures error == Some(message.GetOr(LoadFailed)) && !isLoading && pending == old(pending) - 1
      ensures insights == old(insights) && timePeriod == old(timePeriod) && requests == old(requests)
    {
      error := Some(message.GetOr(LoadFailed));
      isLoading := false;
      pending := pending - 1;
    }
  }
}
