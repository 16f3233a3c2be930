/** The screen-time page as the object it is: fields that its handlers update
    in place. Every method is proved to perform exactly the transition that
    `ScreenTimeSession` defines for it, so the lemmas proved there (the clock
    law, the pause guards, the unconditional reset, ...) hold of the page. */
module ScreenTimePage {
  import opened Wrappers
  import opened ScreenTimeSession
  import ControlButtons

  class Controller {
    var status: Option<Status>
    var isPaused: bool
    var isPausedRef: bool
    var pausedElapsedSeconds: int
    var startTime: Option<int>
    var timerLive: bool
    var syncLive: bool
    var loading: bool
    var childId: int
    var inFlight: nat

    /** The page's fields as one value. */
    ghost function State(): Session
      reads this
    {
      Session(status, isPaused, isPausedRef, pausedElapsedSeconds, startTime,
              timerLive, syncLive, loading, childId, inFlight)
    }

    /** The component as first rendered: no status yet, loading, child 1. */
    constructor ()
      ensures State() == Initial && Inv(State())
    {
      status, isPaused, isPausedRef, pausedElapsedSeconds := None, false, false, 0;
      startTime, timerLive, syncLive := None, false, false;
      loading, childId, inFlight := true, 1, 0;
    }

    /** The `seconds` prop of the timer display. */
    function DisplayedSeconds(): (seconds: int)
      reads this
      ensures seconds == Displayed(State())
      ensures isPaused ==> seconds == pausedElapsedSeconds
    {
      if isPaused then pausedElapsedSeconds
      else if status.Some? then status.value.elapsedSeconds
      else 0
    }

    /** The buttons rendered below the timer; the loading screen, shown while
        loading before any status arrived, renders none. */
    function Controls(): (buttons: seq<ControlButtons.Button>)
      reads this
      ensures loading && status.None? ==> buttons == []
      ensures !(loading && status.None?) ==>
        buttons == ControlButtons.Buttons(ShownActive(State()), isPaused, loading)
      ensures buttons == ShownControls(State())
    {
      if loading && status.None? then []
      else ControlButtons.Buttons(status.Some? && status.value.isActive, isPaused, loading)
    }

    method ClearTimers()
      modifies this
      ensures State() == AfterClear(old(State()))
    {
      if timerLive { timerLive := false; }
      if syncLive { syncLive := false; }
    }

    method StartLocalTimer(initialSeconds: int, now: int)
      modifies this
      ensures State() == AfterLocalTimerStart(old(State()), initialSeconds, now)
    {
      if isPausedRef {
        return;
      }
      if timerLive { timerLive := false; }
      startTime := Some(now - initialSeconds * 1000);
      if status.Some? {
        status := Some(status.value.(elapsedSeconds := initialSeconds));
      }
      timerLive := true;
    }

    method StartSyncTimer()
      modifies this
      ensures State() == AfterSyncTimerStart(old(State()))
    {
      if isPausedRef {
        return;
      }
      if syncLive { syncLive := false; }
      syncLive := true;
    }

    /** The body of the 1-second interval, firing at time `now`. */
    method Tick(now: int)
      requires timerLive && startTime.Some?
      modifies this
      ensures State() == AfterTick(old(State()), now)
    {
      if isPausedRef {
        return;
      }
      if status.Some? {
        var prev := status.value;
        var seconds := (now - startTime.value) / 1000;
        var level := prev.alertLevel;
        if seconds > AlertAfter {
          level := 2;
        } else if seconds > WarningAfter {
          level := 1;
        }
        status := Some(prev.(elapsedSeconds := seconds, alertLevel := level, isActive := true));
      }
    }

    /** `fetchStatus` up to its `await`: sends the request unless paused. */
    method BeginFetchStatus() returns (sent: bool)
      modifies this
      ensures (State(), sent) == AfterFetchIssue(old(State()))
    {
      if isPausedRef {
        return false;
      }
      inFlight := inFlight + 1;
      sent := true;
    }

    /** `fetchStatus` after its `await`, with the outcome of the request. */
    method CompleteFetchStatus(now: int, response: Response<Status>)
      requires inFlight > 0
      modifies this
      ensures State() == AfterFetchResolve(old(State()), now, response)
    {
      inFlight := inFlight - 1;
      if response.Ok? {
        var data := response.payload;
        if isPausedRef {
          return;
        }
        status := Some(data);
        if data.isActive && !isPausedRef {
          StartLocalTimer(data.elapsedSeconds, now);
          StartSyncTimer();
        } else {
          ClearTimers();
        }
      }
    }

    /** The body of the 10-second interval. */
    method SyncFire() returns (sent: bool)
      requires syncLive
      modifies this
      ensures (State(), sent) == AfterSyncFire(old(State()))
    {
      if isPausedRef {
        return false;
      }
      sent := BeginFetchStatus();
    }

    /** The `visibilitychange` listener. */
    method OnVisibilityChange(hidden: bool) returns (sent: bool)
      modifies this
      ensures (State(), sent) == AfterVisibility(old(State()), hidden)
    {
      sent := false;
      if !hidden && status.Some? && status.value.isActive && !isPaused {
        sent := BeginFetchStatus();
      }
    }

    /** `handleStart`; `response` is the outcome of the start call, consulted
        only when the call is made (`called`). */
    method HandleStart(now: int, response: Response<Status>) returns (called: bool)
      modifies this
      ensures (State(), called) == AfterStart(old(State()), now, response)
    {
      if isPaused {
        isPaused := false;
        isPausedRef := false;
        if status.Some? {
          status := Some(status.value.(isActive := true, elapsedSeconds := pausedElapsedSeconds));
        }
        StartLocalTimer(pausedElapsedSeconds, now);
        StartSyncTimer();
        return false;
      }
      called := true;
      loading := true;
      if response.Ok? {
        status := Some(response.payload);
        isPaused := false;
        isPausedRef := false;
        pausedElapsedSeconds := 0;
        StartLocalTimer(0, now);
        StartSyncTimer();
      }
      loading := false;
    }

    method HandlePause()
      modifies this
      ensures State() == AfterPause(old(State()))
    {
      ClearTimers();
      if status.Some? {
        var current := status.value.elapsedSeconds;
        pausedElapsedSeconds := current;
        status := Some(status.value.(isActive := false, elapsedSeconds := current));
      }
      isPaused := true;
      isPausedRef := true;
    }

    /** The local reset both `handleReset` branches perform. */
    method ResetLocally()
      modifies this
      ensures State() == LocalReset(old(State())).(loading := old(loading))
    {
      ClearTimers();
      isPaused := false;
      isPausedRef := false;
      pausedElapsedSeconds := 0;
      startTime := None;
      status := Some(IdleStatus);
    }

    /** `handleReset`, given the outcome of the end call. */
    method HandleReset(response: Response<()>)
      modifies this
      ensures State() == AfterReset(old(State()), response)
    {
      loading := true;
      // The try block (any response) and the catch block (a thrown call)
      // perform the same local reset.
      ResetLocally();
      loading := false;
    }

    /** `handleRecord`, given the outcome of the end call. */
    method HandleRecord(response: Response<()>)
      modifies this
      ensures State() == AfterRecord(old(State()), response)
    {
      loading := true;
      if response.Ok? {
        ResetLocally();
      }
      loading := false;
    }

    /** `init`: the settings lookup, then the first status fetch. */
    method Init(settings: Response<int>, now: int, response: Response<Status>)
      modifies this
      ensures State() == AfterInit(old(State()), settings, now, response)
    {
      if !settings.Thrown? {
        var current := 1;
        if settings.Ok? && settings.payload != 0 {
          current := settings.payload;
        }
        childId := current;
        var sent := BeginFetchStatus();
        if sent {
          CompleteFetchStatus(now, response);
        }
      }
      loading := false;
    }

    /** The effect cleanup run when the page unmounts. */
    method Unmount()
      modifies this
      ensures State() == AfterClear(old(State()))
    {
      ClearTimers();
    }
  }

  /** The page shows only a "Loading..." text while it loads and has no
      status yet. */
  predicate LoadingScreen(s: Session) {
    s.loading && s.status.None?
  }

  /** The buttons a page in state `s` renders. */
  function ShownControls(s: Session): seq<ControlButtons.Button> {
    if LoadingScreen(s) then []
    else ControlButtons.Buttons(ShownActive(s), s.isPaused, s.loading)
  }

  predicate OfferedOn(action: ControlButtons.Action, s: Session) {
    action in ControlButtons.Actions(ShownControls(s))
  }

  /** On every reachable page the buttons offer only what the handlers can
      act on: recording only while stopped with no timer running, stopping
      only while not stopped and running, starting exactly while no session
      is shown as active and the loading screen is not up, and nothing at all
      on the loading screen. */
  lemma ControlsMatchSession(s: Session)
    requires Inv(s)
    ensures OfferedOn(ControlButtons.OnRecord, s) ==> s.isPaused && !s.tickLive && !s.syncLive
    ensures OfferedOn(ControlButtons.OnPause, s) ==> !s.isPaused && s.status.Some?
    ensures OfferedOn(ControlButtons.OnStart, s) <==> !ShownActive(s) && !LoadingScreen(s)
    ensures LoadingScreen(s) ==> forall a :: !OfferedOn(a, s)
  {
    ControlButtons.OfferedIff(ShownActive(s), s.isPaused, s.loading);
  }
}
