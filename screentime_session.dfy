/** The screen-time session controller of the screen-time page, as a state
    machine over values.

    A `Session` holds every piece of state the page keeps: the status record
    last shown, the paused flag (both the React state and the ref that the
    callbacks read), the snapshot taken at pause, the wall-clock anchor of the
    1-second tick, the two interval handles (as "live" flags), the loading flag,
    the child id and the number of status fetches still awaiting a response.
    Each handler of the page is a function from the old session (plus the
    current time in milliseconds and the outcome of any network call) to the
    new one. The class `ScreenTimePage.Controller` performs the same updates in
    place and is proved against these functions. */
module ScreenTimeSession {
  import opened Wrappers

  /** The message the page shows for a fresh, empty session. */
  const IdleMessage: string := "いま どのくらい つかってるかな？"

  /** Elapsed seconds above which a tick raises the alert to level 1 (10 minutes). */
  const WarningAfter: int := 600
  /** Elapsed seconds above which a tick raises the alert to level 2 (30 minutes). */
  const AlertAfter: int := 1800

  /** The server's status record: `screentime_id`, `is_active`,
      `elapsed_seconds`, `message`, `alert_level`. */
  datatype Status = Status(
    screentimeId: int,
    isActive: bool,
    elapsedSeconds: int,
    message: string,
    alertLevel: int)

  /** The record that reset and record install locally. */
  const IdleStatus: Status := Status(0, false, 0, IdleMessage, 0)

  datatype Session = Session(
    status: Option<Status>,      // `status`, null before the first successful fetch
    isPaused: bool,              // `isPaused` (React state, read by handlers and render)
    isPausedRef: bool,           // `isPausedRef.current` (read inside callbacks)
    pausedElapsedSeconds: int,   // `pausedElapsedSeconds`
    startTime: Option<int>,      // `startTime`: the anchor of the running tick, in ms
    tickLive: bool,              // `timerRef.current` holds a live 1-second interval
    syncLive: bool,              // `syncRef.current` holds a live 10-second interval
    loading: bool,               // `loading`
    childId: int,                // `childId`
    inFlight: nat)               // status fetches issued and not yet resolved

  /** The state right after mounting, before `init` has run. */
  const Initial: Session := Session(None, false, false, 0, None, false, false, true, 1, 0)

  /** The consistency the handlers maintain between the page's fields. */
  ghost predicate Inv(s: Session) {
    && s.isPaused == s.isPausedRef
    && s.tickLive == s.syncLive
    && (s.tickLive ==> s.startTime.Some? && !s.isPaused)
    && (s.isPaused && s.status.Some? ==>
          !s.status.value.isActive && s.status.value.elapsedSeconds == s.pausedElapsedSeconds)
  }

  // ---------------------------------------------------------------------------
  // The clock and the alert level

  /** The anchor `startLocalTimer` records so that a tick at `now` reads `initialSeconds`. */
  function AnchorFor(initialSeconds: int, now: int): int {
    now - initialSeconds * 1000
  }

  /** `Math.floor((now - anchor) / 1000)`; for a positive divisor Dafny's
      Euclidean division is exactly the floor. */
  function TickSeconds(anchor: int, now: int): int {
    (now - anchor) / 1000
  }

  /** The alert level as a pure function of elapsed seconds: level 2 past
      thirty minutes, level 1 past ten. The tick handler uses the same
      thresholds but keeps the previous level below ten minutes (`TickAlert`). */
  function Level(seconds: int): (level: int)
    ensures 0 <= level <= 2
    ensures level == 2 <==> seconds > AlertAfter
    ensures level == 1 <==> WarningAfter < seconds <= AlertAfter
  {
    if seconds > AlertAfter then 2 else if seconds > WarningAfter then 1 else 0
  }

  /** The level a tick writes: it only ever raises the level past a threshold
      and otherwise keeps the previous one. */
  function TickAlert(previous: int, seconds: int): (level: int)
    ensures seconds > WarningAfter ==> level == Level(seconds)
    ensures seconds <= WarningAfter ==> level == previous
  {
    if seconds > AlertAfter then 2 else if seconds > WarningAfter then 1 else previous
  }

  // ---------------------------------------------------------------------------
  // Helpers of the page

  /** `clearTimers`: both intervals are cancelled; nothing else changes. */
  function AfterClear(s: Session): (r: Session)
    ensures !r.tickLive && !r.syncLive
    ensures r.(tickLive := s.tickLive, syncLive := s.syncLive) == s
  {
    s.(tickLive := false, syncLive := false)
  }

  /** `startLocalTimer(initialSeconds)` at time `now`. */
  function AfterLocalTimerStart(s: Session, initialSeconds: int, now: int): Session {
    if s.isPausedRef then s
    else
      s.(startTime := Some(AnchorFor(initialSeconds, now)),
         status := if s.status.Some? then Some(s.status.value.(elapsedSeconds := initialSeconds)) else None,
         tickLive := true)
  }

  /** `startSyncTimer(childId)`. */
  function AfterSyncTimerStart(s: Session): Session {
    if s.isPausedRef then s else s.(syncLive := true)
  }

  /** One firing of the 1-second interval at time `now`. */
  function AfterTick(s: Session, now: int): Session
    requires s.tickLive && s.startTime.Some?
  {
    if s.isPausedRef then s
    else match s.status
      case None => s
      case Some(prev) =>
        var seconds := TickSeconds(s.startTime.value, now);
        s.(status := Some(prev.(elapsedSeconds := seconds,
                                alertLevel := TickAlert(prev.alertLevel, seconds),
                                isActive := true)))
  }

  /** The part of `fetchStatus` before its `await`: returns whether the
      request was sent. */
  function AfterFetchIssue(s: Session): (Session, bool) {
    if s.isPausedRef then (s, false) else (s.(inFlight := s.inFlight + 1), true)
  }

  /** The part of `fetchStatus` after its `await`, with the request's outcome. */
  function AfterFetchResolve(s: Session, now: int, response: Response<Status>): Session
    requires s.inFlight > 0
  {
    var s1 := s.(inFlight := s.inFlight - 1);
    match response
    case Ok(data) =>
      if s1.isPausedRef then s1
      else
        var s2 := s1.(status := Some(data));
        if data.isActive && !s2.isPausedRef then
          AfterSyncTimerStart(AfterLocalTimerStart(s2, data.elapsedSeconds, now))
        else
          AfterClear(s2)
    case NotOk => s1
    case Thrown => s1
  }

  /** One firing of the 10-second interval: returns whether a fetch was sent. */
  function AfterSyncFire(s: Session): (Session, bool)
    requires s.syncLive
  {
    if s.isPausedRef then (s, false) else AfterFetchIssue(s)
  }

  /** The `visibilitychange` listener; `hidden` is `document.hidden`. */
  function AfterVisibility(s: Session, hidden: bool): (Session, bool) {
    if !hidden && s.status.Some? && s.status.value.isActive && !s.isPaused then AfterFetchIssue(s)
    else (s, false)
  }

  // ---------------------------------------------------------------------------
  // Handlers

  /** `handleStart`: resumes locally when paused, otherwise posts to the start
      endpoint (whose outcome is `response`). The flag says whether a call was made. */
  function AfterStart(s: Session, now: int, response: Response<Status>): (Session, bool) {
    if s.isPaused then
      var s1 := s.(isPaused := false, isPausedRef := false,
                   status := if s.status.Some?
                             then Some(s.status.value.(isActive := true, elapsedSeconds := s.pausedElapsedSeconds))
                             else None);
      (AfterSyncTimerStart(AfterLocalTimerStart(s1, s.pausedElapsedSeconds, now)), false)
    else
      var s1 := match response
        case Ok(data) =>
          var s2 := s.(status := Some(data), isPaused := false, isPausedRef := false, pausedElapsedSeconds := 0);
          AfterSyncTimerStart(AfterLocalTimerStart(s2, 0, now))
        case NotOk => s
        case Thrown => s;
      (s1.(loading := false), true)
  }

  /** `handlePause`: local only. */
  function AfterPause(s: Session): Session {
    var s1 := AfterClear(s);
    var s2 := if s1.status.Some? then
                var current := s1.status.value.elapsedSeconds;
                s1.(pausedElapsedSeconds := current,
                    status := Some(s1.status.value.(isActive := false, elapsedSeconds := current)))
              else s1;
    s2.(isPaused := true, isPausedRef := true)
  }

  /** The local reset shared by `handleReset` and the successful branch of `handleRecord`. */
  function LocalReset(s: Session): Session {
    AfterClear(s).(isPaused := false, isPausedRef := false, pausedElapsedSeconds := 0,
                   startTime := None, status := Some(IdleStatus))
  }

  /** `handleReset`, given the outcome of the end call. */
  function AfterReset(s: Session, response: Response<()>): Session {
    match response
    case Ok(_) => LocalReset(s).(loading := false)
    case NotOk => LocalReset(s).(loading := false)
    case Thrown => LocalReset(s).(loading := false)
  }

  /** `handleRecord`, given the outcome of the end call. */
  function AfterRecord(s: Session, response: Response<()>): Session {
    if response.Ok? then LocalReset(s).(loading := false) else s.(loading := false)
  }

  /** `init`: `settings` is the outcome of the settings lookup, whose payload is
      `settings.child_id` (0 when absent); `response` is the outcome of the
      first status fetch. */
  function AfterInit(s: Session, settings: Response<int>, now: int, response: Response<Status>): Session {
    match settings
    case Thrown => s.(loading := false)
    case NotOk => InitWithChild(s, 1, now, response)
    case Ok(child) => InitWithChild(s, if child != 0 then child else 1, now, response)
  }

  /** The rest of `init` once the child id is known: the first status fetch. */
  function InitWithChild(s: Session, child: int, now: int, response: Response<Status>): Session {
    var (s1, sent) := AfterFetchIssue(s.(childId := child));
    var s2 := if sent then AfterFetchResolve(s1, now, response) else s1;
    s2.(loading := false)
  }

  // ---------------------------------------------------------------------------
  // What the page renders

  /** The `seconds` prop given to the timer display. */
  function Displayed(s: Session): int {
    if s.isPaused then s.pausedElapsedSeconds
    else if s.status.Some? then s.status.value.elapsedSeconds
    else 0
  }

  /** The `isActive` prop given to the control buttons. */
  function ShownActive(s: Session): bool {
    s.status.Some? && s.status.value.isActive
  }

  // ---------------------------------------------------------------------------
  // Events, for reasoning about sequences of them

  datatype Event =
    | TickFired(now: int)
    | SyncFired
    | FetchResolved(at: int, response: Response<Status>)
    | VisibilityChanged(hidden: bool)
    | StartPressed(pressedAt: int, startResponse: Response<Status>)
    | PausePressed
    | ResetPressed(endResponse: Response<()>)
    | RecordPressed(recordResponse: Response<()>)
    | Unmounted

  /** Applies one event. An interval that is not live never fires and a fetch
      that was never sent never resolves, so those events change nothing. */
  function Apply(s: Session, e: Event): Session {
    match e
    case TickFired(now) => if s.tickLive && s.startTime.Some? then AfterTick(s, now) else s
    case SyncFired => if s.syncLive then AfterSyncFire(s).0 else s
    case FetchResolved(now, response) => if s.inFlight > 0 then AfterFetchResolve(s, now, response) else s
    case VisibilityChanged(hidden) => AfterVisibility(s, hidden).0
    case StartPressed(now, response) => AfterStart(s, now, response).0
    case PausePressed => AfterPause(s)
    case ResetPressed(response) => AfterReset(s, response)
    case RecordPressed(response) => AfterRecord(s, response)
    case Unmounted => AfterClear(s)
  }

  function Run(s: Session, events: seq<Event>): Session
    decreases |events|
  {
    if events == [] then s else Run(Apply(s, events[0]), events[1..])
  }

  /** Events that need no press of a button: what timers, the network and the
      browser can do on their own (and a repeated stop). */
  predicate Unattended(e: Event) {
    e.TickFired? || e.SyncFired? || e.FetchResolved? || e.VisibilityChanged? || e.PausePressed? || e.Unmounted?
  }

  // ---------------------------------------------------------------------------
  // Properties of the clock and the alert level

  /** Starting at `initialSeconds` reads exactly `initialSeconds` at the start
      and `initialSeconds + d/1000` after `d` milliseconds. */
  lemma AnchorLaw(initialSeconds: int, now: int, d: int)
    requires d >= 0
    ensures TickSeconds(AnchorFor(initialSeconds, now), now) == initialSeconds
    ensures TickSeconds(AnchorFor(initialSeconds, now), now + d) == initialSeconds + d / 1000
  {
    assert now + d - AnchorFor(initialSeconds, now) == d + initialSeconds * 1000;
  }

  /** Elapsed seconds never decrease as the wall clock advances. */
  lemma TickSecondsMonotone(anchor: int, t1: int, t2: int)
    requires t1 <= t2
    ensures TickSeconds(anchor, t1) <= TickSeconds(anchor, t2)
  {
  }

  /** The evaluator is monotone in elapsed seconds. */
  lemma LevelMonotone(s1: int, s2: int)
    requires s1 <= s2
    ensures Level(s1) <= Level(s2)
  {
  }

  /** A tick agrees with the evaluator when the previous level did and time
      did not run backwards. */
  lemma TickAlertConsistent(previous: int, s1: int, s2: int)
    requires previous == Level(s1) && s1 <= s2
    ensures TickAlert(previous, s2) == Level(s2)
  {
  }

  /** The level written by a tick is not a function of elapsed seconds alone:
      at or below 600 seconds it keeps whatever level came before. */
  lemma TickAlertKeepsStaleLevel()
    ensures TickAlert(2, 30) == 2 && Level(30) == 0
    ensures TickAlert(0, 30) == 0
  {
  }

  // ---------------------------------------------------------------------------
  // Properties of single events

  /** Every event keeps the page's fields consistent. */
  lemma ApplyPreservesInv(s: Session, e: Event)
    requires Inv(s)
    ensures Inv(Apply(s, e))
  {
  }

  lemma InitialInv()
    ensures Inv(Initial)
  {
  }

  /** `init` ends consistent and with loading over. */
  lemma InitPreservesInv(s: Session, settings: Response<int>, now: int, response: Response<Status>)
    requires Inv(s)
    ensures Inv(AfterInit(s, settings, now, response))
    ensures !AfterInit(s, settings, now, response).loading
  {
  }

  /** A tick while live and unpaused recomputes elapsed seconds from the anchor,
      marks the session active and touches nothing but the status record; a
      tick with no status does nothing. */
  lemma TickEffect(s: Session, now: int)
    requires Inv(s) && s.tickLive
    ensures var r := AfterTick(s, now);
      && r.(status := s.status) == s
      && (s.status.None? ==> r == s)
      && (s.status.Some? ==>
            var seconds := TickSeconds(s.startTime.value, now);
            && r.status.Some?
            && r.status.value.elapsedSeconds == seconds
            && r.status.value.isActive
            && r.status.value.alertLevel == TickAlert(s.status.value.alertLevel, seconds)
            && r.status.value.screentimeId == s.status.value.screentimeId
            && r.status.value.message == s.status.value.message)
  {
  }

  /** Starting the local timer anchors it so that it reads the initial value at once. */
  lemma LocalTimerStartEffect(s: Session, initialSeconds: int, now: int)
    requires !s.isPausedRef
    ensures var r := AfterLocalTimerStart(s, initialSeconds, now);
      && r.tickLive
      && r.startTime == Some(AnchorFor(initialSeconds, now))
      && TickSeconds(r.startTime.value, now) == initialSeconds
      && (r.status.Some? ==> r.status.value.elapsedSeconds == initialSeconds)
  {
    AnchorLaw(initialSeconds, now, 0);
  }

  /** While paused, no timer can be started and no fetch applied, whether the
      pause came before the request or while it was in flight. */
  lemma PausedBlocksEverything(s: Session, now: int, initialSeconds: int, response: Response<Status>)
    requires Inv(s) && s.isPaused
    ensures AfterLocalTimerStart(s, initialSeconds, now) == s
    ensures AfterSyncTimerStart(s) == s
    ensures AfterFetchIssue(s) == (s, false)
    ensures AfterVisibility(s, false) == (s, false)
    ensures s.inFlight > 0 ==> AfterFetchResolve(s, now, response) == s.(inFlight := s.inFlight - 1)
  {
  }

  /** A pause between sending a status request and its response makes the
      response have no effect. */
  lemma PauseDuringFetch(s: Session, now: int, response: Response<Status>)
    requires Inv(s) && !s.isPaused
    ensures var (issued, sent) := AfterFetchIssue(s);
      && sent
      && var paused := AfterPause(issued);
         AfterFetchResolve(paused, now, response) == paused.(inFlight := paused.inFlight - 1)
  {
  }

  /** A successful, unpaused fetch installs the server's record and runs both
      timers from its elapsed value exactly when it is active; any other
      outcome changes nothing but the count of requests in flight. */
  lemma FetchResolveEffect(s: Session, now: int, response: Response<Status>)
    requires Inv(s) && s.inFlight > 0 && !s.isPaused
    ensures var r := AfterFetchResolve(s, now, response);
      && r.inFlight == s.inFlight - 1
      && (response.Ok? ==>
            && r.status == Some(response.payload)
            && r.tickLive == response.payload.isActive
            && r.syncLive == response.payload.isActive
            && (response.payload.isActive ==>
                  r.startTime == Some(AnchorFor(response.payload.elapsedSeconds, now))))
      && (!response.Ok? ==> r == s.(inFlight := s.inFlight - 1))
  {
  }

  /** The visibility listener sends a request exactly when the page is
      visible, the shown session is active and the page is not paused. */
  lemma VisibilityFetchIff(s: Session, hidden: bool)
    requires Inv(s)
    ensures AfterVisibility(s, hidden).1 <==> !hidden && ShownActive(s) && !s.isPaused
    ensures AfterVisibility(s, hidden).1 ==> AfterVisibility(s, hidden).0.inFlight == s.inFlight + 1
    ensures !AfterVisibility(s, hidden).1 ==> AfterVisibility(s, hidden).0 == s
  {
  }

  /** Pause stops both timers, freezes the shown seconds at their current value
      and sends nothing. */
  lemma PauseEffect(s: Session)
    requires Inv(s)
    ensures var r := AfterPause(s);
      && r.isPaused && r.isPausedRef && !r.tickLive && !r.syncLive
      && r.inFlight == s.inFlight && r.loading == s.loading
      && (s.status.Some? ==>
            && r.pausedElapsedSeconds == s.status.value.elapsedSeconds
            && Displayed(r) == Displayed(s)
            && !ShownActive(r))
      && Displayed(r) == r.pausedElapsedSeconds
  {
  }

  /** Resuming makes no call, clears the pause and restarts both timers from
      the snapshot; a fresh start changes the session only on an ok response
      and then starts from zero. */
  lemma StartEffect(s: Session, now: int, response: Response<Status>)
    requires Inv(s)
    ensures var (r, called) := AfterStart(s, now, response);
      && called == !s.isPaused
      && (s.isPaused ==>
            && !r.isPaused && r.tickLive && r.syncLive
            && r.startTime == Some(AnchorFor(s.pausedElapsedSeconds, now))
            && r.inFlight == s.inFlight
            && (s.status.Some? ==> ShownActive(r) && Displayed(r) == s.pausedElapsedSeconds))
      && (!s.isPaused && response.Ok? ==>
            && r.tickLive && r.syncLive && !r.isPaused
            && r.status == Some(response.payload.(elapsedSeconds := 0))
            && r.startTime == Some(now)
            && r.pausedElapsedSeconds == 0
            && Displayed(r) == 0)
      && (!s.isPaused && !response.Ok? ==> r == s.(loading := false))
  {
  }

  /** Whatever the end call does, reset leaves the same idle local state. */
  lemma ResetIsUnconditional(s: Session, a: Response<()>, b: Response<()>)
    ensures AfterReset(s, a) == AfterReset(s, b)
    ensures var r := AfterReset(s, a);
      && r.status == Some(IdleStatus)
      && !r.isPaused && !r.isPausedRef && !r.tickLive && !r.syncLive
      && r.pausedElapsedSeconds == 0 && r.startTime == None && !r.loading
      && Displayed(r) == 0 && !ShownActive(r)
  {
  }

  /** Record resets exactly as reset does on an ok response, and otherwise
      changes nothing but the loading flag. */
  lemma RecordOnlyOnOk(s: Session, response: Response<()>)
    ensures response.Ok? ==> AfterRecord(s, response) == AfterReset(s, response)
    ensures !response.Ok? ==> AfterRecord(s, response) == s.(loading := false)
    ensures !AfterRecord(s, response).loading
  {
  }

  // ---------------------------------------------------------------------------
  // Properties of sequences of events

  lemma {:induction false} RunPreservesInv(s: Session, events: seq<Event>)
    requires Inv(s)
    ensures Inv(Run(s, events))
    decreases |events|
  {
    if events != [] {
      ApplyPreservesInv(s, events[0]);
      RunPreservesInv(Apply(s, events[0]), events[1..]);
    }
  }

  /** While paused, nothing that happens without a button press advances the
      session: the shown seconds, the status record and the snapshot stay put,
      no timer comes back and no request is sent. */
  lemma {:induction false} PausedRunIsFrozen(s: Session, events: seq<Event>)
    requires Inv(s) && s.isPaused
    requires forall i :: 0 <= i < |events| ==> Unattended(events[i])
    ensures var r := Run(s, events);
      && r.isPaused && !r.tickLive && !r.syncLive
      && r.status == s.status
      && r.pausedElapsedSeconds == s.pausedElapsedSeconds
      && Displayed(r) == Displayed(s)
      && r.inFlight <= s.inFlight
    decreases |events|
  {
    if events != [] {
      var s1 := Apply(s, events[0]);
      ApplyPreservesInv(s, events[0]);
      assert s1.isPaused && s1.status == s.status && s1.pausedElapsedSeconds == s.pausedElapsedSeconds;
      assert s1.inFlight <= s.inFlight;
      PausedRunIsFrozen(s1, events[1..]);
      assert Run(s, events) == Run(s1, events[1..]);
    }
  }

  predicate OnlyTicks(events: seq<Event>) {
    forall i :: 0 <= i < |events| ==> events[i].TickFired?
  }

  predicate TimesNondecreasing(events: seq<Event>)
    requires OnlyTicks(events)
  {
    forall i, j :: 0 <= i < j < |events| ==> events[i].now <= events[j].now
  }

  /** The clock-anchor law: after any run of ticks, the elapsed seconds are
      those of the last tick measured from the anchor, however many ticks were
      missed or coalesced on the way; nothing but the status record changes. */
  lemma {:induction false} TickRunReadsClock(s: Session, events: seq<Event>)
    requires Inv(s) && s.tickLive && s.status.Some?
    requires OnlyTicks(events) && |events| > 0
    ensures var r := Run(s, events);
      && r.(status := s.status) == s
      && r.status.Some? && r.status.value.isActive
      && r.status.value.elapsedSeconds == TickSeconds(s.startTime.value, events[|events| - 1].now)
    decreases |events|
  {
    var s1 := Apply(s, events[0]);
    assert s1.(status := s.status) == s;
    if |events| == 1 {
      assert events[1..] == [];
    } else {
      TickRunReadsClock(s1, events[1..]);
      assert events[1..][|events[1..]| - 1] == events[|events| - 1];
    }
  }

  /** Along a run of ticks whose times do not go backwards, an alert level that
      agrees with the evaluator keeps agreeing and never decreases. */
  lemma {:induction false} TickRunAlertAgrees(s: Session, events: seq<Event>)
    requires Inv(s) && s.tickLive && s.status.Some?
    requires OnlyTicks(events) && |events| > 0 && TimesNondecreasing(events)
    requires s.status.value.alertLevel == Level(s.status.value.elapsedSeconds)
    requires s.status.value.elapsedSeconds <= TickSeconds(s.startTime.value, events[0].now)
    ensures var r := Run(s, events);
      && r.status.Some?
      && r.status.value.alertLevel == Level(r.status.value.elapsedSeconds)
      && s.status.value.alertLevel <= r.status.value.alertLevel
    decreases |events|
  {
    var s1 := Apply(s, events[0]);
    var seconds := TickSeconds(s.startTime.value, events[0].now);
    TickAlertConsistent(s.status.value.alertLevel, s.status.value.elapsedSeconds, seconds);
    LevelMonotone(s.status.value.elapsedSeconds, seconds);
    assert s1.status.value.elapsedSeconds == seconds;
    assert s1.status.value.alertLevel == Level(seconds);
    if |events| > 1 {
      TickSecondsMonotone(s.startTime.value, events[0].now, events[1].now);
      assert events[1..][0] == events[1];
      TickRunAlertAgrees(s1, events[1..]);
    }
  }

  /** From a fresh start at time `t0`, any run of ticks shows the whole seconds
      elapsed since `t0`. */
  lemma FreshStartThenTicks(s: Session, t0: int, data: Status, events: seq<Event>)
    requires Inv(s) && !s.isPaused
    requires OnlyTicks(events) && |events| > 0
    ensures var r := Run(AfterStart(s, t0, Ok(data)).0, events);
      r.status.Some? && r.status.value.elapsedSeconds == (events[|events| - 1].now - t0) / 1000
  {
    var started := AfterStart(s, t0, Ok(data)).0;
    assert started.startTime == Some(t0);
    ApplyPreservesInv(s, StartPressed(t0, Ok(data)));
    TickRunReadsClock(started, events);
  }

  /** Pause/resume continuity: paused at E, resumed at `t`, the tick one
      second later shows E + 1, not a jump. */
  lemma ResumeContinuity(s: Session, t: int)
    requires Inv(s) && s.isPaused && s.status.Some?
    ensures var resumed := AfterStart(s, t, NotOk).0;
      && Displayed(resumed) == s.pausedElapsedSeconds
      && Displayed(AfterTick(resumed, t + 1000)) == s.pausedElapsedSeconds + 1
  {
    AnchorLaw(s.pausedElapsedSeconds, t, 1000);
  }
}
