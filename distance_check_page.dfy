/** The distance checker page: a three-step flow from the start screen to
    the measuring screen to the result screen, and back to measuring on retry. */
module DistanceCheckPage {
  import opened Wrappers

  /** The `step` state: 'start', 'measuring' or 'result'. */
  datatype Step = Start | Measuring | Result

  /** The one child screen the page renders. */
  datatype Shown = StartScreen | MeasuringScreen | ResultScreen(distance: int)

  class Page {
    var step: Step
    var distanceResult: Option<int>
    var alertsShown: nat   // the provisional "saved" alerts

    /** A result is on record exactly while the result screen is up. */
    ghost predicate Valid()
      reads this
    {
      step == Result <==> distanceResult.Some?
    }

    constructor ()
      ensures Valid() && step == Start && distanceResult == None && alertsShown == 0
    {
      step := Start;
      distanceResult := None;
      alertsShown := 0;
    }

    /** The screen rendered for the current step: exactly one of the three
        conditional elements is shown, and the result screen receives the
        measured distance. */
    function Rendered(): (shown: Shown)
      requires Valid()
      reads this
      ensures shown == StartScreen <==> step == Start
      ensures shown == MeasuringScreen <==> step == Measuring
      ensures shown.ResultScreen? <==> step == Result
      ensures shown.ResultScreen? ==> Some(shown.distance) == distanceResult
    {
      match step
      case Start => StartScreen
      case Measuring => MeasuringScreen
      case Result => ResultScreen(distanceResult.value)
    }

    /** `handleStart`, wired only to the start screen, so it runs on the
        start step. */
    method HandleStart()
      requires Valid() && step == Start
      modifies this
      ensures Valid() && step == Measuring && distanceResult == old(distanceResult)
      ensures alertsShown == old(alertsShown)
    {
      step := Measuring;
    }

    /** `handleMeasurementComplete`, the measuring screen's `onComplete`. */
    method HandleMeasurementComplete(distance: int)
      modifies this
      ensures Valid() && step == Result && distanceResult == Some(distance)
      ensures alertsShown == old(alertsShown)
    {
      distanceResult := Some(distance);
      step := Result;
    }

    /** `handleRetry`: back to measuring, the old result dropped. */
    method HandleRetry()
      modifies this
      ensures Valid() && step == Measuring && distanceResult == None
      ensures alertsShown == old(alertsShown)
    {
      step := Measuring;
      distanceResult := None;
    }

    /** `handleSaveComplete`: only an alert; the step does not change. */
    method HandleSaveComplete()
      requires Valid()
      modifies this
      ensures Valid() && step == old(step) && distanceResult == old(distanceResult)
      ensures alertsShown == old(alertsShown) + 1
    {
      alertsShown := alertsShown + 1;
    }
  }

  /** A retried measurement replaces the first: the result screen shows the
      distance of the latest completed measurement. */
  method RetryShowsLatest(first: int, second: int) returns (shown: Shown)
    ensures shown == ResultScreen(second)
  {
    var page := new Page();
    page.HandleStart();
    page.HandleMeasurementComplete(first);
    assert page.Rendered() == ResultScreen(first);
    page.HandleRetry();
    assert page.Rendered() == MeasuringScreen;
    page.HandleMeasurementComplete(second);
    shown := page.Rendered();
  }
}
