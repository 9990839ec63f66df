/**
  The activity-ingestion panel: starting a sync of the athlete's Strava
  activities, the 2 s interval that polls its status until it completes or
  fails, and the progress shown meanwhile. The network calls are events:
  the start request's answer and each poll's answer arrive as method calls,
  and intervals are numbered handles.
*/
module ActivityIngestion {
  import opened Wrappers
  import opened Text
  import opened Numbers
  import opened Sessions

  const NoSessionMessage := "Authentication required - no user session"
  const MissingPrefix := "Authentication required - missing: "
  const StartFailed := "Failed to start ingestion"
  const PollIntervalMs: nat := 2000

  datatype IngestionState = InProgress | Completed | Failed

  datatype IngestionStatus = IngestionStatus(state: IngestionState, totalActivities: int, processedActivities: int)

  datatype StartRequest = StartRequest(userId: string, accessToken: string, refreshToken: string, fullSync: bool)

  /** The message naming what is missing; an item that is present leaves
      an empty slot between the spaces. */
  function MissingMessage(noUserId: bool, noAccess: bool, noRefresh: bool): string {
    MissingPrefix + (if noUserId then "userId" else "") + " "
      + (if noAccess then "accessToken" else "") + " "
      + (if noRefresh then "refreshToken" else "")
  }

  /** What `startIngestion` does before its request. */
  datatype Guard = NoSession | Missing(message: string) | Proceed(request: StartRequest)

  function StartGuard(session: Session, fullSync: bool): (g: Guard)
    ensures g.NoSession? <==> session.user.None?
    ensures g.Proceed? <==>
      session.user.Some? && StringTruthy(UserIdOf(session.user.value))
      && StringTruthy(session.accessToken) && StringTruthy(session.refreshToken)
    ensures g.Proceed? ==> g.request == StartRequest(UserIdOf(session.user.value).value,
      session.accessToken.value, session.refreshToken.value, fullSync)
    ensures g.Missing? ==> g.message == MissingMessage(!StringTruthy(UserIdOf(session.user.value)),
      !StringTruthy(session.accessToken), !StringTruthy(session.refreshToken))
  {
    if session.user.None? then NoSession
    else
      var userId := UserIdOf(session.user.value);
      if !StringTruthy(userId) || !StringTruthy(session.accessToken) || !StringTruthy(session.refreshToken) then
        Missing(MissingMessage(!StringTruthy(userId), !StringTruthy(session.accessToken),
                               !StringTruthy(session.refreshToken)))
      else
        Proceed(StartRequest(userId.value, session.accessToken.value, session.refreshToken.value, fullSync))
  }

  /** A user known only by a Strava id is started under that id. */
  lemma StravaIdStandsIn(n: nat, access: string, refresh: string, fullSync: bool)
    requires access != "" && refresh != ""
    ensures StartGuard(Session(Some(User(None, Some(n))), Some(access), Some(refresh)), fullSync)
      == Proceed(StartRequest(NatToString(n), access, refresh, fullSync))
  {
    assert IntToString(n) == NatToString(n);
  }

  /** `getProgressPercentage`. */
  function ProgressPercentage(status: Option<IngestionStatus>): (p: int)
    ensures status.None? || status.value.totalActivities == 0 ==> p == 0
    ensures status.Some? && status.value.totalActivities != 0 ==>
      var share := status.value.processedActivities as real / status.value.totalActivities as real * 100.0;
      (p as real) - 0.5 <= share < (p as real) + 0.5
  {
    if status.None? || status.value.totalActivities == 0 then 0
    else Round(status.value.processedActivities as real / status.value.totalActivities as real * 100.0)
  }

  /** With a consistent count the percentage lies in 0..100, grows with
      the processed count, and is 100 exactly at the end. */
  lemma ProgressBounds(state: IngestionState, total: int, processed: int, more: int)
    requires 0 <= processed <= more <= total && total > 0
    ensures 0 <= ProgressPercentage(Some(IngestionStatus(state, total, processed))) <= 100
    ensures ProgressPercentage(Some(IngestionStatus(state, total, processed)))
         <= ProgressPercentage(Some(IngestionStatus(state, total, more)))
    ensures ProgressPercentage(Some(IngestionStatus(state, total, total))) == 100
  {
    var t := total as real;
    var x := processed as real / t * 100.0;
    var y := more as real / t * 100.0;
    ScaledRatio(processed as real, more as real, t);
    RoundMonotone(x, y);
    RoundMonotone(0.0, x);
    RoundMonotone(x, 100.0);
    assert t / t == 1.0;
  }

  /** Shares of one positive total, scaled to percent, keep their order
      and stay within 0..100. */
  lemma ScaledRatio(p: real, q: real, t: real)
    requires 0.0 <= p <= q <= t && t > 0.0
    ensures 0.0 <= p / t * 100.0 <= q / t * 100.0 <= 100.0
  {
    var a, b := p / t, q / t;
    assert a * t == p && b * t == q;
    NotNegativeFactor(a, t);
    NotNegativeFactor(b - a, t);
    NotNegativeFactor(1.0 - b, t);
  }

  lemma NotNegativeFactor(d: real, t: real)
    requires t > 0.0 && d * t >= 0.0
    ensures d >= 0.0
  {
  }

  class IngestionPanel {
    var mounted: bool
    var isIngesting: bool
    var status: Option<IngestionStatus>
    var error: Option<string>
    /** The handle last stored in `pollingInterval`. */
    var pollingInterval: Option<nat>
    /** The intervals that are running. */
    var running: set<nat>
    var nextHandle: nat
    /** Start requests awaiting their answer. */
    var starting: nat
    /** The requests sent, the completion callbacks made and the stats
        refreshes issued. */
    var requests: seq<StartRequest>
    var completions: nat
    var statsRefreshes: nat

    /** While mounted, the only interval that can be running is the stored
        one: each new handle's effect cleanup clears the one before. */
    predicate Valid()
      reads this
    {
      (forall h :: h in running ==> h < nextHandle)
      && (pollingInterval.Some? ==> pollingInterval.value < nextHandle)
      && (mounted ==> forall h :: h in running ==> pollingInterval == Some(h))
    }

    constructor()
      ensures Valid() && mounted && !isIngesting && status.None? && error.None?
      ensures pollingInterval.None? && running == {} && starting == 0
      ensures requests == [] && completions == 0 && statsRefreshes == 0
    {
      mounted := true;
      isIngesting := false;
      status := None;
      error := None;
      pollingInterval := None;
      running := {};
      nextHandle := 0;
      starting := 0;
      requests := [];
      completions := 0;
      statsRefreshes := 0;
    }

    /** `startIngestion`, up to the request: a failed guard sets its error
        and sends nothing; otherwise the panel is ingesting, the error is
        cleared and exactly one request is sent. */
    method StartIngestion(session: Session, fullSync: bool)
      requires Valid() && mounted
      modifies this
      ensures Valid() && mounted
      ensures match StartGuard(session, fullSync)
        case NoSession =>
          error == Some(NoSessionMessage) && requests == old(requests) && starting == old(starting)
          && isIngesting == old(isIngesting)
        case Missing(message) =>
          error == Some(message) && requests == old(requests) && starting == old(starting)
          && isIngesting == old(isIngesting)
        case Proceed(request) =>
          error.None? && isIngesting && requests == old(requests) + [request] && starting == old(starting) + 1
      ensures status == old(status) && pollingInterval == old(pollingInterval) && running == old(running)
      ensures nextHandle == old(nextHandle) && completions == old(completions) && statsRefreshes == old(statsRefreshes)
    {
      match StartGuard(session, fullSync)
      case NoSession =>
        error := Some(NoSessionMessage);
      case Missing(message) =>
        error := Some(message);
      case Proceed(request) =>
        isIngesting := true;
        error := None;
        requests := requests + [request];
        starting := starting + 1;
    }

    /** The start request succeeds: a new interval runs. While mounted it is
        stored, and storing it clears the interval stored before; once
        unmounted the store is dropped and nothing will ever clear it. */
    method OnStartOk() returns (handle: nat)
      requires Valid() && starting > 0
      modifies this
      ensures Valid()
      ensures handle == old(nextHandle) && nextHandle == handle + 1 && starting == old(starting) - 1
      ensures mounted ==> pollingInterval == Some(handle) && running == {handle}
      ensures !mounted ==> pollingInterval == old(pollingInterval) && running == old(running) + {handle}
      ensures mounted == old(mounted) && isIngesting == old(isIngesting) && status == old(status)
      ensures error == old(error) && requests == old(requests)
      ensures completions == old(completions) && statsRefreshes == old(statsRefreshes)
    {
      handle := nextHandle;
      nextHandle := nextHandle + 1;
      starting := starting - 1;
      if mounted {
        if pollingInterval.Some? {
          running := running - {pollingInterval.value};
        }
        pollingInterval := Some(handle);
      }
      running := running + {handle};
    }

    /** The start request fails: its message (or the default) is shown and
        ingestion stops; no interval is created. */
    method OnStartErr(message: Option<string>)
      requires Valid() && starting > 0
      modifies this
      ensures Valid()
      ensures mounted ==> error == Some(message.GetOr(StartFailed)) && !isIngesting
      ensures !mounted ==> error == old(error) && isIngesting == old(isIngesting)
      ensures starting == old(starting) - 1 && running == old(running) && pollingInterval == old(pollingInterval)
      ensures mounted == old(mounted) && status == old(status) && nextHandle == old(nextHandle)
      ensures requests == old(requests) && completions == old(completions) && statsRefreshes == old(statsRefreshes)
    {
      starting := starting - 1;
      if mounted {
        error := Some(message.GetOr(StartFailed));
        isIngesting := false;
      }
    }

    /** Interval `h` fires and its status fetch answers: the status is
        shown; `completed` or `failed` clears that interval and ends
        ingestion; only `completed` refreshes the stats and calls back. */
    method OnPollStatus(h: nat, st: IngestionStatus)
      requires Valid() && h in running
      modifies this
      ensures Valid()
      ensures mounted ==> status == Some(st)
      ensures !mounted ==> status == old(status)
      ensures st.state in {Completed, Failed} ==> running == old(running) - {h}
      ensures st.state in {Completed, Failed} && mounted ==> !isIngesting
      ensures !(st.state in {Completed, Failed} && mounted) ==> isIngesting == old(isIngesting)
      ensures st.state == InProgress ==> running == old(running)
      ensures st.state == Completed ==> completions == old(completions) + 1 && statsRefreshes == old(statsRefreshes) + 1
      ensures st.state != Completed ==> completions == old(completions) && statsRefreshes == old(statsRefreshes)
      ensures mounted == old(mounted) && error == old(error) && pollingInterval == old(pollingInterval)
      ensures nextHandle == old(nextHandle) && starting == old(starting) && requests == old(requests)
    {
      if mounted {
        status := Some(st);
      }
      if st.state == Completed || st.state == Failed {
        running := running - {h};
        if mounted {
          isIngesting := false;
        }
        if st.state == Completed {
          statsRefreshes := statsRefreshes + 1;
          completions := completions + 1;
        }
      }
    }

    /** A poll's fetch throws: the error is only logged, the interval goes
        on. */
    method OnPollError(h: nat)
      requires Valid() && h in running
      ensures running == old(running) && isIngesting == old(isIngesting) && status == old(status)
      ensures error == old(error)
    {
    }

    /** Unmounting clears the stored interval. */
    method Unmount()
      requires Valid() && mounted
      modifies this
      ensures Valid() && !mounted
      ensures running == {}
      ensures pollingInterval == old(pollingInterval) && isIngesting == old(isIngesting)
      ensures status == old(status) && error == old(error) && nextHandle == old(nextHandle)
      ensures starting == old(starting) && requests == old(requests)
      ensures completions == old(completions) && statsRefreshes == old(statsRefreshes)
    {
      if pollingInterval.Some? {
        running := running - {pollingInterval.value};
      }
      mounted := false;
    }
  }

  /** A start that answers after the panel has unmounted leaves an interval
      polling with no stored handle; it stops only on a terminal status. */
  method StartAnsweredAfterUnmount(session: Session)
    returns (leaked: nat, stillRunning: bool)
    requires StartGuard(session, false).Proceed?
    ensures stillRunning
  {
    var panel := new IngestionPanel();
    panel.StartIngestion(session, false);
    panel.Unmount();
    leaked := panel.OnStartOk();
    panel.OnPollStatus(leaked, IngestionStatus(InProgress, 10, 3));
    stillRunning := leaked in panel.running;
  }
}
