/** The control buttons of the screen-time page: which buttons are rendered,
    in which order, for each combination of the `isActive`, `isPaused` and
    `isLoading` props. */
module ControlButtons {

  /** The handler a button is wired to (the stop button calls `onPause`). */
  datatype Action = OnStart | OnPause | OnReset | OnRecord

  datatype Button = Button(action: Action, caption: string, disabled: bool)

  function StartButton(isLoading: bool): Button { Button(OnStart, "スタート", isLoading) }
  function StopButton(isLoading: bool): Button { Button(OnPause, "ストップ", isLoading) }
  function ResetButton(isLoading: bool): Button { Button(OnReset, "リセット", isLoading) }
  function RecordButton(isLoading: bool): Button { Button(OnRecord, "きろく", isLoading) }

  function Actions(buttons: seq<Button>): (actions: seq<Action>)
    ensures |actions| == |buttons|
    ensures forall i :: 0 <= i < |buttons| ==> actions[i] == buttons[i].action
  {
    if buttons == [] then [] else [buttons[0].action] + Actions(buttons[1..])
  }

  /** The buttons rendered, top to bottom. `isActive` is checked first. */
  function Buttons(isActive: bool, isPaused: bool, isLoading: bool): (buttons: seq<Button>)
    ensures forall i :: 0 <= i < |buttons| ==> buttons[i].disabled == isLoading
    ensures isActive ==> Actions(buttons) == [OnPause, OnReset]
    ensures !isActive && isPaused ==> Actions(buttons) == [OnStart, OnReset, OnRecord]
    ensures !isActive && !isPaused ==> Actions(buttons) == [OnStart]
  {
    if isActive then
      [StopButton(isLoading), ResetButton(isLoading)]
    else if isPaused then
      [StartButton(isLoading), ResetButton(isLoading), RecordButton(isLoading)]
    else
      [StartButton(isLoading)]
  }

  predicate Offered(action: Action, isActive: bool, isPaused: bool, isLoading: bool) {
    action in Actions(Buttons(isActive, isPaused, isLoading))
  }

  /** Which intents each state offers: record only when stopped but not
      active, stop only while active, start only while not active, reset
      whenever a session is running or stopped. */
  lemma OfferedIff(isActive: bool, isPaused: bool, isLoading: bool)
    ensures Offered(OnRecord, isActive, isPaused, isLoading) <==> !isActive && isPaused
    ensures Offered(OnPause, isActive, isPaused, isLoading) <==> isActive
    ensures Offered(OnStart, isActive, isPaused, isLoading) <==> !isActive
    ensures Offered(OnReset, isActive, isPaused, isLoading) <==> isActive || isPaused
  {
    var actions := Actions(Buttons(isActive, isPaused, isLoading));
    if isActive {
      assert actions == [OnPause, OnReset];
    } else if isPaused {
      assert actions == [OnStart, OnReset, OnRecord];
    } else {
      assert actions == [OnStart];
    }
  }

  /** No intent is offered twice. */
  lemma ActionsDistinct(isActive: bool, isPaused: bool, isLoading: bool)
    ensures var actions := Actions(Buttons(isActive, isPaused, isLoading));
      forall i, j :: 0 <= i < j < |actions| ==> actions[i] != actions[j]
  {
  }
}
