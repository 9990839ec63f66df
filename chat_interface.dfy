/**
  The AI chat panel: messages are appended optimistically and rolled back
  when the request fails, the conversation id is adopted from the first
  answer, and assistant text is rendered line by line by a small markdown
  classifier. Requests and their answers are events.
*/
module ChatInterface {
  import opened Wrappers
  import opened Text
  import opened Sessions

  const AuthRequired := "Authentication required"
  const SendFailed := "Failed to send message"
  const FollowUpFailed := "Failed to process follow-up"
  const ClearFailed := "Failed to clear history"

  // ---------------------------------------------------------------------
  // The `**bold**` pattern

  /** The characters `.` does not match. */
  predicate IsLineTerminator(c: char) {
    c == '\n' || c == '\r' || c == '\U{2028}' || c == '\U{2029}'
  }

  /** The lazy `(.*?)\*\*` part of the pattern, tried from index k: the
      index of the first `**` at or after k, provided no line terminator
      comes before it. */
  function CloseFrom(s: string, k: nat): (j: Option<nat>)
    ensures j.Some? ==> k <= j.value && OccursAt(s, "**", j.value)
    ensures j.Some? ==> forall m :: k <= m < j.value ==> !IsLineTerminator(s[m])
    decreases |s| - k
  {
    if k + 2 > |s| then None
    else if s[k..k + 2] == "**" then Some(k)
    else if IsLineTerminator(s[k]) then None
    else CloseFrom(s, k + 1)
  }

  /** The match of `\*\*(.*?)\*\*` starting at i, as the index of its
      closing `**`. */
  function MatchAt(s: string, i: nat): (j: Option<nat>)
    ensures j.Some? ==> OccursAt(s, "**", i) && i + 2 <= j.value && OccursAt(s, "**", j.value)
  {
    if OccursAt(s, "**", i) then CloseFrom(s, i + 2) else None
  }

  /** The leftmost match at or after `from`. */
  function FirstMatch(s: string, from: nat): (r: Option<(nat, nat)>)
    ensures r.Some? ==> from <= r.value.0 && MatchAt(s, r.value.0) == Some(r.value.1)
    ensures r.None? ==> forall i :: from <= i < |s| ==> MatchAt(s, i).None?
    decreases |s| - from
  {
    if from >= |s| then None
    else match MatchAt(s, from)
      case Some(j) => Some((from, j))
      case None => FirstMatch(s, from + 1)
  }

  /** `boldRegex.test(line)`. */
  predicate HasBold(s: string) { FirstMatch(s, 0).Some? }

  /** Reassembles split pieces: the odd ones were between `**` pairs. */
  function Unsplit(parts: seq<string>): string
    requires |parts| % 2 == 1
  {
    if |parts| == 1 then parts[0] else parts[0] + "**" + parts[1] + "**" + Unsplit(parts[2..])
  }

  /** Text before a bold span, the span's inner text, and the text after. */
  function Glue(before: string, inner: string, after: string): string {
    before + "**" + inner + "**" + after
  }

  /** `line.split(boldRegex)`: the text between matches, with each match's
      inner text (the capture) between them. Nothing is lost: putting the
      `**` back gives the line. */
  function SplitBold(s: string): (parts: seq<string>)
    ensures |parts| % 2 == 1
    ensures Unsplit(parts) == s
    decreases |s|
  {
    var m := FirstMatch(s, 0);
    if m.None? then [s]
    else
      var i, j := m.value.0, m.value.1;
      assert OccursAt(s, "**", i) && i + 2 <= j && OccursAt(s, "**", j);
      var rest := SplitBold(s[j + 2..]);
      SplitAround(s, i, j, rest);
      [s[..i], s[i + 2..j]] + rest
  }

  /** The pieces before, inside and after one match reassemble the line. */
  lemma SplitAround(s: string, i: nat, j: nat, rest: seq<string>)
    requires OccursAt(s, "**", i) && i + 2 <= j && OccursAt(s, "**", j)
    requires |rest| % 2 == 1 && Unsplit(rest) == s[j + 2..]
    ensures |[s[..i], s[i + 2..j]] + rest| % 2 == 1
    ensures Unsplit([s[..i], s[i + 2..j]] + rest) == s
  {
    assert |[s[..i], s[i + 2..j]] + rest| == |rest| + 2;
    UnsplitCons(s[..i], s[i + 2..j], rest);
    assert Glue(s[..i], s[i + 2..j], Unsplit(rest)) == Glue(s[..i], s[i + 2..j], s[j + 2..]);
    Reassemble(s, i, j);
  }

  /** A line without a match is one piece. */
  lemma SplitWithoutMatch(s: string)
    requires !HasBold(s)
    ensures SplitBold(s) == [s]
  {
  }

  lemma Reassemble(s: string, i: nat, j: nat)
    requires OccursAt(s, "**", i) && i + 2 <= j && OccursAt(s, "**", j)
    ensures s == Glue(s[..i], s[i + 2..j], s[j + 2..])
  {
    assert s[i..i + 2] == "**" && s[j..j + 2] == "**";
    assert s[i..] == s[i..i + 2] + s[i + 2..j] + s[j..j + 2] + s[j + 2..];
    assert s == s[..i] + s[i..];
  }

  lemma UnsplitCons(a: string, b: string, rest: seq<string>)
    requires |rest| % 2 == 1
    ensures Unsplit([a, b] + rest) == Glue(a, b, Unsplit(rest))
  {
    assert ([a, b] + rest)[2..] == rest;
  }

  /** A `**` needs two asterisks. */
  lemma CloseFromSkips(s: string, k: nat, j: nat)
    requires k <= j && OccursAt(s, "**", j)
    requires forall m :: k <= m < j ==> s[m] != '*' && !IsLineTerminator(s[m])
    ensures CloseFrom(s, k) == Some(j)
    decreases j - k
  {
    if k < j {
      assert s[k] != '*';
      CloseFromSkips(s, k + 1, j);
    }
  }

  // ---------------------------------------------------------------------
  // Line classification

  /** The callout markers; each holds a `**…**` pair. */
  const Callouts: seq<(char, string)> := [
    ('\U{1F3AF}', "Goal:"), ('\U{1F525}', "Hot Take:"),
    ('\U{1F4A1}', "Pro Tip:"), ('\U{1F4C8}', "Progress:")
  ]

  function Marker(c: (char, string)): string { [c.0, ' '] + "**" + c.1 + "**" }

  predicate HasCallout(t: string) {
    exists k | 0 <= k < |Callouts| :: Contains(t, Marker(Callouts[k]))
  }

  datatype Line =
    | Header(text: string)
    /** The split pieces; the odd-numbered ones are rendered bold. */
    | BoldLine(parts: seq<string>)
    | Bullet(text: string)
    | Callout(text: string)
    | Paragraph(text: string)
    | Break

  /** One line of an answer, classified by its trimmed text, first rule
      first. */
  function ClassifyLine(line: string): (l: Line)
    ensures var t := Trim(line);
      (l.Header? <==> StartsWith(t, "### "))
      && (l.BoldLine? <==> !StartsWith(t, "### ") && HasBold(t))
      && (l.Bullet? <==> !StartsWith(t, "### ") && !HasBold(t) && StartsWith(t, "• "))
      && (l.Break? <==> t == [])
      && (l.Header? ==> l.text == t[4..])
      && (l.BoldLine? ==> l.parts == SplitBold(t))
      && (l.Bullet? ==> l.text == t[2..])
      && !l.Callout?
      && (l.Paragraph? ==> l.text == t)
  {
    var t := Trim(line);
    if StartsWith(t, "### ") then Header(t[4..])
    else if HasBold(t) then BoldLine(SplitBold(t))
    else if StartsWith(t, "• ") then Bullet(t[2..])
    else if HasCallout(t) then
      // Every marker is also a bold match, so the bold rule came first.
      CalloutIsBold(t);
      assert false;
      Callout(t)
    else if t != [] then Paragraph(t)
    else Break
  }

  /** Every callout marker is itself a bold match. */
  lemma MarkerIsBold(t: string, c: (char, string), p: nat)
    requires OccursAt(t, Marker(c), p)
    requires forall m :: 0 <= m < |c.1| ==> c.1[m] != '*' && !IsLineTerminator(c.1[m])
    ensures MatchAt(t, p + 2) == Some(p + 4 + |c.1|)
  {
    var w := c.1;
    MarkerChars(t, c, p);
    StarsAt(t, p + 2);
    StarsAt(t, p + 4 + |w|);
    assert forall m :: p + 4 <= m < p + 4 + |w| ==> t[m] == w[m - p - 4] by {
      forall m | p + 4 <= m < p + 4 + |w| ensures t[m] == w[m - p - 4] {
        assert t[p + 4 + (m - p - 4)] == w[m - p - 4];
      }
    }
    CloseFromSkips(t, p + 4, p + 4 + |w|);
  }

  /** The characters of a marker found at p: the two pairs of stars and
      the label between them. */
  lemma MarkerChars(t: string, c: (char, string), p: nat)
    requires OccursAt(t, Marker(c), p)
    ensures p + 6 + |c.1| <= |t|
    ensures t[p + 2] == '*' && t[p + 3] == '*'
    ensures t[p + 4 + |c.1|] == '*' && t[p + 5 + |c.1|] == '*'
    ensures forall m :: 0 <= m < |c.1| ==> t[p + 4 + m] == c.1[m]
  {
    var w := c.1;
    var mk := Marker(c);
    assert |mk| == 6 + |w|;
    assert forall m :: 0 <= m < |mk| ==> t[p + m] == mk[m] by {
      forall m | 0 <= m < |mk| ensures t[p + m] == mk[m] {
        assert t[p..p + |mk|][m] == mk[m];
      }
    }
    assert mk[2] == '*' && mk[3] == '*' && mk[4 + |w|] == '*' && mk[5 + |w|] == '*';
    assert forall m :: 0 <= m < |w| ==> mk[4 + m] == w[m];
  }

  lemma StarsAt(t: string, i: nat)
    requires i + 2 <= |t| && t[i] == '*' && t[i + 1] == '*'
    ensures OccursAt(t, "**", i)
  {
    assert t[i..i + 2] == [t[i], t[i + 1]];
  }

  /** The callout rule is never reached: a line holding a callout marker
      either is a header or takes the bold rule. */
  lemma CalloutTakesBoldBranch(line: string)
    requires HasCallout(Trim(line))
    ensures !ClassifyLine(line).Callout?
    ensures !StartsWith(Trim(line), "### ") ==> ClassifyLine(line).BoldLine?
  {
    CalloutIsBold(Trim(line));
  }

  /** A line holding a callout marker holds a bold match. */
  lemma CalloutIsBold(t: string)
    requires HasCallout(t)
    ensures HasBold(t)
  {
    var k :| 0 <= k < |Callouts| && Contains(t, Marker(Callouts[k]));
    var p :| 0 <= p <= |t| - |Marker(Callouts[k])| && OccursAt(t, Marker(Callouts[k]), p);
    MarkerIsBold(t, Callouts[k], p);
    BoldFromMatch(t, p + 2);
  }

  /** A match anywhere makes the line bold. */
  lemma BoldFromMatch(s: string, i: nat)
    requires MatchAt(s, i).Some?
    ensures HasBold(s)
  {
    assert i < |s|;
  }

  /** `formatMessageContent`: one rendered line per line of the text. */
  function FormatMessageContent(content: string): (lines: seq<Line>)
    ensures |lines| == |Split(content, '\n')|
    ensures forall i :: 0 <= i < |lines| ==> lines[i] == ClassifyLine(Split(content, '\n')[i])
  {
    var raw := Split(content, '\n');
    seq(|raw|, i requires 0 <= i < |raw| => ClassifyLine(raw[i]))
  }

  // ---------------------------------------------------------------------
  // The conversation

  datatype Role = UserRole | Assistant | SystemRole

  datatype ChatMessage = ChatMessage(role: Role, content: string, timestamp: Option<string>)

  datatype ChatRequest = ChatRequest(userId: string, query: string, conversationId: Option<string>)

  datatype ChatResponse = ChatResponse(response: string, followUps: seq<string>,
                                       conversationId: string, timestamp: string, relevantActivities: nat)

  datatype AskKind = Typed | FollowUp

  /** The request in flight: how it was asked, the message appended for
      it, and the conversation id its closure saw. */
  datatype Ask = Ask(kind: AskKind, userMessage: ChatMessage, sentConversation: Option<string>)

  /** The conversation id is sent only when truthy. */
  function RequestFor(userId: string, query: string, conversationId: Option<string>): (r: ChatRequest)
    ensures r.userId == userId && r.query == query
    ensures r.conversationId.Some? <==> StringTruthy(conversationId)
    ensures r.conversationId.Some? ==> r.conversationId == conversationId
  {
    ChatRequest(userId, query, if StringTruthy(conversationId) then conversationId else None)
  }

  /** What `sendMessage` does with the input. */
  datatype SendGuard = Ignore | NeedAuth | Go(userId: string)

  function SendGuardOf(session: Session, input: string): (g: SendGuard)
    ensures g.Ignore? <==> session.user.None? || IsBlank(input)
    ensures g.NeedAuth? <==> session.user.Some? && !IsBlank(input) && !StringTruthy(UserIdOf(session.user.value))
    ensures g.Go? ==> session.user.Some? && Some(g.userId) == UserIdOf(session.user.value) && g.userId != []
  {
    if session.user.None? || IsBlank(input) then Ignore
    else
      var userId := UserIdOf(session.user.value);
      if !StringTruthy(userId) then NeedAuth else Go(userId.value)
  }

  class ChatPanel {
    var messages: seq<ChatMessage>
    var currentMessage: string
    var isLoading: bool
    var followUps: seq<string>
    var error: Option<string>
    var conversationId: Option<string>
    var userHasInteracted: bool
    var initialHistoryLoaded: bool
    /** The question awaiting its answer. */
    var pending: Option<Ask>
    /** Clear-history requests awaiting their answer. */
    var clearing: nat
    /** What was sent, and how often the activity callback ran. */
    var requests: seq<ChatRequest>
    var clearRequests: seq<(string, Option<string>)>
    var activitySelections: nat

    /** The panel is loading exactly while a question is in flight (the
        input, the send button and the follow-ups are disabled then). */
    predicate Valid()
      reads this
    {
      isLoading <==> pending.Some?
    }

    constructor()
      ensures Valid() && messages == [] && currentMessage == [] && !isLoading
      ensures followUps == [] && error.None? && conversationId.None?
      ensures requests == [] && clearRequests == [] && clearing == 0
    {
      messages := [];
      currentMessage := [];
      isLoading := false;
      followUps := [];
      error := None;
      conversationId := None;
      userHasInteracted := false;
      initialHistoryLoaded := false;
      pending := None;
      clearing := 0;
      requests := [];
      clearRequests := [];
      activitySelections := 0;
    }

    method Type(text: string)
      requires Valid() && !isLoading
      modifies this
      ensures Valid() && currentMessage == text
      ensures messages == old(messages) && pending == old(pending) && error == old(error)
      ensures conversationId == old(conversationId) && requests == old(requests)
    {
      currentMessage := text;
    }

    /** `sendMessage`: nothing without a user or with a blank input; an
        error without a user id; otherwise the typed text (untrimmed) is
        appended as the user's message, the input is cleared and one
        request is sent. */
    method SendMessage(session: Session, now: string)
      requires Valid() && !isLoading
      modifies this
      ensures Valid()
      ensures match SendGuardOf(session, old(currentMessage))
        case Ignore =>
          messages == old(messages) && currentMessage == old(currentMessage) && error == old(error)
          && requests == old(requests) && !isLoading
        case NeedAuth =>
          error == Some(AuthRequired) && messages == old(messages) && currentMessage == old(currentMessage)
          && requests == old(requests) && !isLoading
        case Go(userId) =>
          var m := ChatMessage(UserRole, old(currentMessage), Some(now));
          messages == old(messages) + [m] && currentMessage == [] && error.None? && isLoading
          && pending == Some(Ask(Typed, m, old(conversationId)))
          && requests == old(requests) + [RequestFor(userId, old(currentMessage), old(conversationId))]
      ensures conversationId == old(conversationId) && followUps == old(followUps)
      ensures clearing == old(clearing) && clearRequests == old(clearRequests)
    {
      Dispatch(SendGuardOf(session, currentMessage), now);
    }

    /** The branches of `sendMessage` once the guard is known. */
    method Dispatch(guard: SendGuard, now: string)
      requires Valid() && !isLoading
      modifies this
      ensures Valid()
      ensures match guard
        case Ignore =>
          messages == old(messages) && currentMessage == old(currentMessage) && error == old(error)
          && requests == old(requests) && !isLoading
        case NeedAuth =>
          error == Some(AuthRequired) && messages == old(messages) && currentMessage == old(currentMessage)
          && requests == old(requests) && !isLoading
        case Go(userId) =>
          var m := ChatMessage(UserRole, old(currentMessage), Some(now));
          messages == old(messages) + [m] && currentMessage == [] && error.None? && isLoading
          && pending == Some(Ask(Typed, m, old(conversationId)))
          && requests == old(requests) + [RequestFor(userId, old(currentMessage), old(conversationId))]
      ensures conversationId == old(conversationId) && followUps == old(followUps)
      ensures clearing == old(clearing) && clearRequests == old(clearRequests)
    {
      match guard
      case Ignore =>
      case NeedAuth =>
        error := Some(AuthRequired);
      case Go(userId) =>
        Submit(userId, currentMessage, Typed, now);
        currentMessage := [];
    }

    /** The common part of sending and asking a follow-up: the question is
        appended and sent, carrying the conversation id when truthy. */
    method Submit(userId: string, query: string, kind: AskKind, now: string)
      requires Valid() && !isLoading
      modifies this
      ensures Valid() && isLoading && error.None?
      ensures messages == old(messages) + [ChatMessage(UserRole, query, Some(now))]
      ensures pending == Some(Ask(kind, ChatMessage(UserRole, query, Some(now)), old(conversationId)))
      ensures requests == old(requests) + [RequestFor(userId, query, old(conversationId))]
      ensures currentMessage == old(currentMessage) && conversationId == old(conversationId)
      ensures followUps == old(followUps) && clearing == old(clearing) && clearRequests == old(clearRequests)
    {
      isLoading := true;
      error := None;
      userHasInteracted := true;
      initialHistoryLoaded := true;
      var m := ChatMessage(UserRole, query, Some(now));
      messages := messages + [m];
      requests := requests + [RequestFor(userId, query, conversationId)];
      pending := Some(Ask(kind, m, conversationId));
    }

    /** `handleFollowUpQuestion`: like sending, for the question clicked,
        without touching the input and with no error for a missing id. */
    method AskFollowUp(session: Session, question: string, now: string)
      requires Valid() && !isLoading
      modifies this
      ensures Valid()
      ensures session.user.None? || !StringTruthy(UserIdOf(session.user.value)) ==>
        messages == old(messages) && error == old(error) && requests == old(requests) && !isLoading
      ensures session.user.Some? && StringTruthy(UserIdOf(session.user.value)) ==>
        var m := ChatMessage(UserRole, question, Some(now));
        messages == old(messages) + [m] && error.None? && isLoading
        && pending == Some(Ask(FollowUp, m, old(conversationId)))
        && requests == old(requests) + [RequestFor(UserIdOf(session.user.value).value, question, old(conversationId))]
      ensures currentMessage == old(currentMessage) && conversationId == old(conversationId)
      ensures followUps == old(followUps) && clearing == old(clearing) && clearRequests == old(clearRequests)
    {
      if session.user.None? {
        return;
      }
      var userId := UserIdOf(session.user.value);
      if !StringTruthy(userId) {
        return;
      }
      Submit(userId.value, question, FollowUp, now);
    }

    /** The answer arrives: the assistant's message is appended and the
        follow-ups replaced; the conversation id is adopted only when the
        question was asked without one. */
    method OnAnswer(r: ChatResponse)
      requires Valid() && pending.Some?
      modifies this
      ensures Valid() && !isLoading
      ensures messages == old(messages) + [ChatMessage(Assistant, r.response, Some(r.timestamp))]
      ensures followUps == r.followUps
      ensures !StringTruthy(old(pending).value.sentConversation) && r.conversationId != [] ==>
        conversationId == Some(r.conversationId)
      ensures StringTruthy(old(pending).value.sentConversation) || r.conversationId == [] ==>
        conversationId == old(conversationId)
      ensures activitySelections == old(activitySelections) + (if r.relevantActivities > 0 then 1 else 0)
      ensures currentMessage == old(currentMessage) && error == old(error) && requests == old(requests)
    {
      if !StringTruthy(pending.value.sentConversation) && r.conversationId != [] {
        conversationId := Some(r.conversationId);
      }
      messages := messages + [ChatMessage(Assistant, r.response, Some(r.timestamp))];
      followUps := r.followUps;
      if r.relevantActivities > 0 {
        activitySelections := activitySelections + 1;
      }
      isLoading := false;
      pending := None;
    }

    /** The request fails: the last message is dropped; a typed message is
        put back in the input, a follow-up is not. */
    method OnAskError(message: Option<string>)
      requires Valid() && pending.Some?
      modifies this
      ensures Valid() && !isLoading
      ensures old(pending).value.kind == Typed ==>
        error == Some(message.GetOr(SendFailed)) && currentMessage == old(pending).value.userMessage.content
      ensures old(pending).value.kind == FollowUp ==>
        error == Some(message.GetOr(FollowUpFailed)) && currentMessage == old(currentMessage)
      ensures old(messages) != [] ==> messages == old(messages)[..|old(messages)| - 1]
      ensures old(messages) == [] ==> messages == []
      ensures followUps == old(followUps) && conversationId == old(conversationId) && requests == old(requests)
    {
      var ask := pending.value;
      if ask.kind == Typed {
        error := Some(message.GetOr(SendFailed));
      } else {
        error := Some(message.GetOr(FollowUpFailed));
      }
      messages := if messages == [] then [] else messages[..|messages| - 1];
      if ask.kind == Typed {
        currentMessage := ask.userMessage.content;
      }
      isLoading := false;
      pending := None;
    }

    /** `clearHistory`, up to its request; it needs `session.user.id`
        itself, a Strava id alone does not do. */
    method ClearHistory(session: Session)
      requires Valid()
      modifies this
      ensures Valid()
      ensures session.user.Some? && StringTruthy(session.user.value.id) ==>
        clearing == old(clearing) + 1
        && clearRequests == old(clearRequests) + [(session.user.value.id.value,
             if StringTruthy(old(conversationId)) then old(conversationId) else None)]
      ensures !(session.user.Some? && StringTruthy(session.user.value.id)) ==>
        clearing == old(clearing) && clearRequests == old(clearRequests)
      ensures messages == old(messages) && error == old(error) && conversationId == old(conversationId)
      ensures pending == old(pending) && isLoading == old(isLoading) && requests == old(requests)
    {
      if session.user.Some? && StringTruthy(session.user.value.id) {
        clearing := clearing + 1;
        clearRequests := clearRequests + [(session.user.value.id.value,
          if StringTruthy(conversationId) then conversationId else None)];
      }
    }

    /** The clear succeeds: messages, follow-ups, error and conversation id
        are all reset. */
    method OnClearOk()
      requires Valid() && clearing > 0
      modifies this
      ensures Valid()
      ensures messages == [] && followUps == [] && error.None? && conversationId.None?
      ensures clearing == old(clearing) - 1 && pending == old(pending) && currentMessage == old(currentMessage)
    {
      messages := [];
      followUps := [];
      error := None;
      conversationId := None;
      userHasInteracted := true;
      initialHistoryLoaded := true;
      clearing := clearing - 1;
    }

    /** The clear fails: only the error is set. */
    method OnClearErr(message: Option<string>)
      requires Valid() && clearing > 0
      modifies this
      ensures Valid()
      ensures error == Some(message.GetOr(ClearFailed))
      ensures messages == old(messages) && followUps == old(followUps) && conversationId == old(conversationId)
      ensures clearing == old(clearing) - 1 && pending == old(pending) && currentMessage == old(currentMessage)
    {
      error := Some(message.GetOr(ClearFailed));
      clearing := clearing - 1;
    }

    /** `startNewChat`: a new conversation over the same messages. */
    method StartNewChat()
      requires Valid()
      modifies this
      ensures Valid()
      ensures conversationId.None? && followUps == [] && error.None?
      ensures messages == old(messages) && currentMessage == old(currentMessage) && pending == old(pending)
      ensures clearing == old(clearing) && requests == old(requests)
    {
      conversationId := None;
      followUps := [];
      error := None;
      userHasInteracted := true;
    }
  }

  /** A failed send leaves the conversation as it was and gives the text
      back to the input; a failed follow-up leaves the input empty. */
  method FailedAsksRollBack(session: Session, text: string, question: string, now: string)
    returns (messagesAfterSend: seq<ChatMessage>, inputAfterSend: string,
             messagesAfterFollowUp: seq<ChatMessage>, inputAfterFollowUp: string)
    requires session.user.Some? && StringTruthy(UserIdOf(session.user.value)) && !IsBlank(text)
    ensures messagesAfterSend == [] && inputAfterSend == text
    ensures messagesAfterFollowUp == [] && inputAfterFollowUp == []
  {
    var panel := new ChatPanel();
    panel.Type(text);
    panel.SendMessage(session, now);
    panel.OnAskError(None);
    messagesAfterSend, inputAfterSend := panel.messages, panel.currentMessage;
    panel.Type([]);
    panel.AskFollowUp(session, question, now);
    panel.OnAskError(None);
    messagesAfterFollowUp, inputAfterFollowUp := panel.messages, panel.currentMessage;
  }
}
