/** The record dashboard page: the child list with its default selection,
    the per-child fetch that fills the three cards, and the vision chart. */
module RecordPage {
  import opened Wrappers
  import opened RecordVision
  import opened RecordUsage

  datatype Child = Child(childId: int, childName: string)

  /** The screen-time card's data with the view it was fetched for. */
  datatype ScreenTimeData = ScreenTimeData(view: Period, data: seq<DailyPoint>)

  /** The body of the per-child dashboard response. */
  datatype ChildDashboard = ChildDashboard(
    recentEyeTests: seq<EyeTest>,
    recentDistanceChecks: seq<DistanceCheck>,
    recentScreentime: seq<ScreenTimeEntry>)

  /** JavaScript truthiness of the selected id: null and 0 are falsy. */
  predicate Truthy(id: Option<int>) {
    id.Some? && id.value != 0
  }

  class Dashboard {
    var children: seq<Child>
    var selectedChild: Option<int>
    var visionData: seq<VisionData>
    var distanceData: Option<DistanceData>
    var screenTimeData: Option<ScreenTimeData>
    var visionPeriod: Period
    var screenTimeView: Period
    var loading: bool

    constructor ()
      ensures children == [] && selectedChild == None && visionData == []
      ensures distanceData == None && screenTimeData == None
      ensures visionPeriod == Weekly && screenTimeView == Weekly && loading
    {
      children := [];
      selectedChild := None;
      visionData := [];
      distanceData := None;
      screenTimeData := None;
      visionPeriod := Weekly;
      screenTimeView := Weekly;
      loading := true;
    }

    /** `fetchChildren`, given the signed-in parent's id (None when no one
        is signed in) and the outcome of the request. Without a user it
        returns before the `try`, so the page keeps its spinner; otherwise
        the spinner ends whatever the outcome, and a non-empty list selects
        its first child. */
    method FetchChildren(parentId: Option<int>, response: Response<seq<Child>>)
      modifies this
      ensures parentId.None? ==> unchanged(this)
      ensures parentId.Some? ==> !loading
      ensures parentId.Some? && response.Ok? ==> children == response.payload
      ensures parentId.Some? && response.Ok? && response.payload != [] ==>
        selectedChild == Some(response.payload[0].childId)
      ensures parentId.Some? && response.Ok? && response.payload == [] ==>
        selectedChild == old(selectedChild)
      ensures parentId.Some? && !response.Ok? ==>
        children == old(children) && selectedChild == old(selectedChild)
      ensures visionData == old(visionData) && distanceData == old(distanceData)
      ensures screenTimeData == old(screenTimeData)
      ensures visionPeriod == old(visionPeriod) && screenTimeView == old(screenTimeView)
    {
      if parentId.None? {
        return;
      }
      if response.Ok? {
        var mapped := response.payload;
        children := mapped;
        if |mapped| > 0 {
          selectedChild := Some(mapped[0].childId);
        }
      }
      loading := false;
    }

    /** Whether the data effect fetches: it runs whenever the selection or
        either period changes, and fetches only for a truthy selection. */
    function FetchesOnChange(): (fetches: bool)
      reads this
      ensures fetches <==> selectedChild.Some? && selectedChild.value != 0
    {
      Truthy(selectedChild)
    }

    /** A child button. */
    method SelectChild(childId: int)
      modifies this
      ensures selectedChild == Some(childId)
      ensures children == old(children) && visionData == old(visionData)
      ensures distanceData == old(distanceData) && screenTimeData == old(screenTimeData)
      ensures visionPeriod == old(visionPeriod) && screenTimeView == old(screenTimeView)
      ensures loading == old(loading)
    {
      selectedChild := Some(childId);
    }

    /** The weekly/monthly buttons of the vision card. */
    method SetVisionPeriod(period: Period)
      modifies this
      ensures visionPeriod == period
      ensures children == old(children) && selectedChild == old(selectedChild)
      ensures visionData == old(visionData) && distanceData == old(distanceData)
      ensures screenTimeData == old(screenTimeData) && loading == old(loading)
      ensures screenTimeView == old(screenTimeView)
    {
      visionPeriod := period;
    }

    /** The weekly/monthly buttons of the screen-time card. */
    method SetScreenTimeView(view: Period)
      modifies this
      ensures screenTimeView == view
      ensures children == old(children) && selectedChild == old(selectedChild)
      ensures visionData == old(visionData) && distanceData == old(distanceData)
      ensures screenTimeData == old(screenTimeData) && loading == old(loading)
      ensures visionPeriod == old(visionPeriod)
    {
      screenTimeView := view;
    }

    /** `fetchChildDashboardData`, given the outcome of the request and the
        current time as an ISO string. The three cards are filled in order;
        a screen-time record with an invalid start time throws after the
        first two are set, and a failed request changes nothing. */
    method FetchChildDashboardData(response: Response<ChildDashboard>, nowIso: string)
      modifies this
      ensures !Truthy(selectedChild) || !response.Ok? ==>
        && visionData == old(visionData) && distanceData == old(distanceData)
        && screenTimeData == old(screenTimeData)
      ensures Truthy(selectedChild) && response.Ok? ==>
        && visionData == MapEyeTests(response.payload.recentEyeTests)
        && distanceData == Some(LatestDistance(response.payload.recentDistanceChecks, nowIso))
        && (AllValid(response.payload.recentScreentime) ==>
              screenTimeData == Some(ScreenTimeData(screenTimeView, DailyPoints(response.payload.recentScreentime))))
        && (!AllValid(response.payload.recentScreentime) ==> screenTimeData == old(screenTimeData))
      ensures children == old(children) && selectedChild == old(selectedChild)
      ensures visionPeriod == old(visionPeriod) && screenTimeView == old(screenTimeView)
      ensures loading == old(loading)
    {
      if !Truthy(selectedChild) {
        return;
      }
      if !response.Ok? {
        return;
      }
      var data := response.payload;
      visionData := MapEyeTests(data.recentEyeTests);
      distanceData := Some(LatestDistance(data.recentDistanceChecks, nowIso));
      var points := AggregateDaily(data.recentScreentime);
      if points.Some? {
        screenTimeData := Some(ScreenTimeData(screenTimeView, points.value));
      }
    }

    /** The vision chart at time `now`: None for the empty-state message,
        otherwise the merged rows of the chosen period, ordered as the page's
        comparator orders them, by month and then day, whatever the year. */
    method VisionChart(now: int) returns (chart: Option<seq<Row>>)
      ensures visionData == [] <==> chart.None?
      ensures chart.Some? ==>
        var start := StartTime(now, visionPeriod);
        && Sorted(MonthDayOrder, chart.value) && Distinct(chart.value)
        && (forall k :: k in Keys(chart.value) <==> OldestDate(visionData, k, start).Some?)
        && (forall r, f :: r in chart.value ==> RowGet(r, f) == LatestField(visionData, KeyOf(r.date), start, f))
    {
      if visionData == [] {
        return None;
      }
      var rows := GroupByDay(visionData, StartTime(now, visionPeriod), MonthDayOrder);
      chart := Some(rows);
    }

    /** The vision chart with its rows in calendar order, so that a window
        across New Year lists December before January. */
    method VisionChartChronological(now: int) returns (chart: Option<seq<Row>>)
      ensures visionData == [] <==> chart.None?
      ensures chart.Some? ==>
        var start := StartTime(now, visionPeriod);
        && Sorted(CalendarOrder, chart.value) && Distinct(chart.value)
        && (forall k :: k in Keys(chart.value) <==> OldestDate(visionData, k, start).Some?)
        && (forall r, f :: r in chart.value ==> RowGet(r, f) == LatestField(visionData, KeyOf(r.date), start, f))
    {
      if visionData == [] {
        return None;
      }
      var rows := GroupByDay(visionData, StartTime(now, visionPeriod), CalendarOrder);
      chart := Some(rows);
    }
  }

  /** After a successful fetch each vision column of a day shows the newest
      value measured at its distance: a 30 cm column never shows a 3 m test. */
  lemma ChartColumnsRouteByDistance(tests: seq<EyeTest>, k: MonthDay, start: int, f: Field)
    requires LatestField(MapEyeTests(tests), k, start, f).Some?
    ensures exists i ::
      && 0 <= i < |tests|
      && (if Is30cm(f) then tests[i].testDistanceCm == 30 else tests[i].testDistanceCm == 300)
  {
    var data := MapEyeTests(tests);
    LatestFieldIsNewest(data, k, start, f);
    var i :| 0 <= i < |data| && Counts(data[i], k, start)
      && Get(data[i], f) == LatestField(data, k, start, f)
      && forall j :: 0 <= j < i && Counts(data[j], k, start) ==> Get(data[j], f).None?;
    assert Get(MapEyeTest(tests[i]), f).Some?;
  }
}
