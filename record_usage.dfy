/** The screen-time and distance parts of the record dashboard: per-day
    totals of screen-time minutes with their usage status, the latest
    distance check with its status, and the colour and text of each status. */
module RecordUsage {
  import opened Wrappers

  // ---------------------------------------------------------------------------
  // Usage status of a day

  const Appropriate: string := "appropriate"
  const Moderate: string := "moderate"
  const TooLong: string := "too_long"
  const TooClose: string := "too_close"
  const NoData: string := "no_data"

  /** More than two hours is too long, more than one hour moderate. */
  function UsageStatus(totalMinutes: int): (status: string)
    ensures status == TooLong <==> totalMinutes > 120
    ensures status == Moderate <==> 60 < totalMinutes <= 120
    ensures status == Appropriate <==> totalMinutes <= 60
  {
    if totalMinutes > 120 then TooLong
    else if totalMinutes > 60 then Moderate
    else Appropriate
  }

  // ---------------------------------------------------------------------------
  // Per-day totals

  /** A screen-time record from the server: the day key of its start time
      (None when the start time is not a valid date, where `toISOString`
      throws) and its minutes (None when missing). */
  datatype ScreenTimeEntry = ScreenTimeEntry(dateKey: Option<string>, totalMinutes: Option<int>)

  datatype DailyPoint = DailyPoint(date: string, totalMinutes: int, status: string)

  /** `st.total_minutes || 0`: missing minutes count as 0. */
  function Minutes(e: ScreenTimeEntry): (m: int)
    ensures e.totalMinutes.None? ==> m == 0
    ensures e.totalMinutes.Some? ==> m == e.totalMinutes.value
  {
    if e.totalMinutes.Some? then e.totalMinutes.value else 0
  }

  ghost predicate AllValid(entries: seq<ScreenTimeEntry>) {
    forall i :: 0 <= i < |entries| ==> entries[i].dateKey.Some?
  }

  /** The sum of the minutes of the entries of day `key`. */
  function TotalFor(entries: seq<ScreenTimeEntry>, key: string): int {
    if entries == [] then 0
    else
      var last := entries[|entries| - 1];
      TotalFor(entries[..|entries| - 1], key) + (if last.dateKey == Some(key) then Minutes(last) else 0)
  }

  /** The day keys in order of first appearance. */
  function DistinctKeys(entries: seq<ScreenTimeEntry>): (keys: seq<string>)
    ensures forall a, b :: 0 <= a < b < |keys| ==> keys[a] != keys[b]
  {
    if entries == [] then []
    else
      var keys := DistinctKeys(entries[..|entries| - 1]);
      var last := entries[|entries| - 1];
      if last.dateKey.Some? && last.dateKey.value !in keys then keys + [last.dateKey.value] else keys
  }

  /** The points of the screen-time chart, one per day in order of first
      appearance, as `Object.entries(dailyTotals)` lists them. */
  function DailyPoints(entries: seq<ScreenTimeEntry>): (points: seq<DailyPoint>)
    ensures |points| == |DistinctKeys(entries)|
  {
    var keys := DistinctKeys(entries);
    seq(|keys|, j requires 0 <= j < |keys| =>
      DailyPoint(keys[j], TotalFor(entries, keys[j]), UsageStatus(TotalFor(entries, keys[j]))))
  }

  /** There is one point per day: the keys are exactly the days of the
      entries. */
  lemma {:induction false} DistinctKeysFacts(entries: seq<ScreenTimeEntry>)
    ensures forall key :: key in DistinctKeys(entries) <==>
      exists i :: 0 <= i < |entries| && entries[i].dateKey == Some(key)
  {
    if entries != [] {
      var init := entries[..|entries| - 1];
      DistinctKeysFacts(init);
      forall key | (exists i :: 0 <= i < |entries| && entries[i].dateKey == Some(key))
        ensures key in DistinctKeys(entries)
      {
        var i :| 0 <= i < |entries| && entries[i].dateKey == Some(key);
        if i < |entries| - 1 {
          assert init[i] == entries[i];
        }
      }
      forall key | key in DistinctKeys(init)
        ensures exists i :: 0 <= i < |entries| && entries[i].dateKey == Some(key)
      {
        var i :| 0 <= i < |init| && init[i].dateKey == Some(key);
        assert entries[i] == init[i];
      }
    }
  }

  /** Totals add up over any split of the entries, so they do not depend on
      how the records are batched. */
  lemma {:induction false} TotalForAppend(a: seq<ScreenTimeEntry>, b: seq<ScreenTimeEntry>, key: string)
    ensures TotalFor(a + b, key) == TotalFor(a, key) + TotalFor(b, key)
    decreases |b|
  {
    if b != [] {
      var bInit := b[..|b| - 1];
      assert (a + b)[..|a + b| - 1] == a + bInit;
      assert (a + b)[|a + b| - 1] == b[|b| - 1];
      TotalForAppend(a, bInit, key);
    } else {
      assert a + b == a;
    }
  }

  /** A day without entries totals 0. */
  lemma {:induction false} TotalForAbsent(entries: seq<ScreenTimeEntry>, key: string)
    requires forall i :: 0 <= i < |entries| ==> entries[i].dateKey != Some(key)
    ensures TotalFor(entries, key) == 0
  {
    if entries != [] {
      TotalForAbsent(entries[..|entries| - 1], key);
    }
  }

  /** The `forEach` filling `dailyTotals` and the `map` over its entries.
      An entry whose start time is not a valid date makes the whole block
      throw: the result is None. */
  method AggregateDaily(entries: seq<ScreenTimeEntry>) returns (points: Option<seq<DailyPoint>>)
    ensures points.None? <==> !AllValid(entries)
    ensures points.Some? ==> points.value == DailyPoints(entries)
  {
    var dailyTotals: map<string, int> := map[];
    var keys: seq<string> := [];
    var i := 0;
    while i < |entries|
      invariant 0 <= i <= |entries|
      invariant AllValid(entries[..i])
      invariant keys == DistinctKeys(entries[..i])
      invariant forall k :: k in dailyTotals <==> k in keys
      invariant forall k :: k in dailyTotals ==> dailyTotals[k] == TotalFor(entries[..i], k)
    {
      var st := entries[i];
      assert entries[..i + 1][..i] == entries[..i] && entries[..i + 1][i] == st;
      if st.dateKey.None? {
        assert !AllValid(entries) by { assert entries[i].dateKey.None?; }
        return None;
      }
      var dateKey := st.dateKey.value;
      var mins := Minutes(st);
      if dateKey in dailyTotals && dailyTotals[dateKey] != 0 {
        dailyTotals := dailyTotals[dateKey := dailyTotals[dateKey] + mins];
      } else {
        if dateKey !in dailyTotals {
          keys := keys + [dateKey];
          DistinctKeysFacts(entries[..i]);
          TotalForAbsent(entries[..i], dateKey);
        }
        dailyTotals := dailyTotals[dateKey := mins];
      }
      i := i + 1;
    }
    assert entries[..i] == entries;
    points := Some(seq(|keys|, j requires 0 <= j < |keys| =>
      DailyPoint(keys[j], dailyTotals[keys[j]], UsageStatus(dailyTotals[keys[j]]))));
  }

  // ---------------------------------------------------------------------------
  // The latest distance check

  /** A distance check as the server sends it, newest first. */
  datatype DistanceCheck = DistanceCheck(avgDistanceCm: real, checkDate: string)

  datatype DistanceData = DistanceData(distanceCm: real, checkDate: string, status: string)

  /** The distance card's data: the newest check, too close below 30 cm;
      with no check, distance 0 dated now (`nowIso`) and no data. */
  function LatestDistance(checks: seq<DistanceCheck>, nowIso: string): (d: DistanceData)
    ensures checks == [] ==> d == DistanceData(0.0, nowIso, NoData)
    ensures checks != [] ==> d.distanceCm == checks[0].avgDistanceCm && d.checkDate == checks[0].checkDate
    ensures d.status == TooClose <==> checks != [] && checks[0].avgDistanceCm < 30.0
    ensures d.status == Appropriate <==> checks != [] && checks[0].avgDistanceCm >= 30.0
  {
    if checks == [] then DistanceData(0.0, nowIso, NoData)
    else
      var latest := checks[0];
      DistanceData(latest.avgDistanceCm, latest.checkDate,
        if latest.avgDistanceCm < 30.0 then TooClose else Appropriate)
  }

  // ---------------------------------------------------------------------------
  // Colours and texts

  const Green: string := "#4CAF50"
  const Yellow: string := "#FFD83B"
  const Red: string := "#FF6B6B"
  const Grey: string := "#999"
  const NoDataText: string := "データがありません"

  /** `getDistanceStatusColor`: grey for 'no_data' and for any unknown status. */
  function DistanceStatusColor(status: string): (color: string)
    ensures color == Green <==> status == Appropriate
    ensures color == Yellow <==> status == TooClose
    ensures color == Grey <==> status != Appropriate && status != TooClose
  {
    if status == Appropriate then Green
    else if status == TooClose then Yellow
    else Grey
  }

  /** `getDistanceStatusText`: the no-data text for 'no_data' and any unknown status. */
  function DistanceStatusText(status: string): (text: string)
    ensures text == "適正な距離です" <==> status == Appropriate
    ensures text == "近すぎます" <==> status == TooClose
    ensures text == NoDataText <==> status != Appropriate && status != TooClose
  {
    if status == Appropriate then "適正な距離です"
    else if status == TooClose then "近すぎます"
    else NoDataText
  }

  /** `getScreenTimeColor`: grey only for an unknown status. The page defines
      this helper but never calls it; the bars use `BarColor`. */
  function ScreenTimeColor(status: string): (color: string)
    ensures color == Green <==> status == Appropriate
    ensures color == Yellow <==> status == Moderate
    ensures color == Red <==> status == TooLong
    ensures color == Grey <==> status !in {Appropriate, Moderate, TooLong}
  {
    if status == Appropriate then Green
    else if status == Moderate then Yellow
    else if status == TooLong then Red
    else Grey
  }

  /** The fill the usage chart's bar `shape` picks: green unless the status
      is moderate or too long. */
  function BarColor(status: string): (color: string)
    ensures color == Yellow <==> status == Moderate
    ensures color == Red <==> status == TooLong
    ensures color == Green <==> status != Moderate && status != TooLong
  {
    if status == TooLong then Red
    else if status == Moderate then Yellow
    else Green
  }

  /** On every status a day can be given the bars agree with the unused
      helper, and the bar of a day is red iff it exceeds two hours, yellow iff
      it exceeds one hour but not two, and green otherwise. */
  lemma BarColorIff(totalMinutes: int)
    ensures BarColor(UsageStatus(totalMinutes)) == ScreenTimeColor(UsageStatus(totalMinutes))
    ensures BarColor(UsageStatus(totalMinutes)) == Red <==> totalMinutes > 120
    ensures BarColor(UsageStatus(totalMinutes)) == Yellow <==> 60 < totalMinutes <= 120
    ensures BarColor(UsageStatus(totalMinutes)) == Green <==> totalMinutes <= 60
  {
  }

  /** `distanceData?.status || 'no_data'`: the status the card renders. */
  function ShownDistanceStatus(data: Option<DistanceData>): (status: string)
    ensures data.None? ==> status == NoData
    ensures data.Some? && data.value.status != "" ==> status == data.value.status
  {
    if data.Some? && data.value.status != "" then data.value.status else NoData
  }

  /** Were the helper used, every computed day status would get its own
      colour, never the fallback: green up to an hour, yellow up to two, red
      above. */
  lemma UsageColorIff(totalMinutes: int)
    ensures ScreenTimeColor(UsageStatus(totalMinutes)) != Grey
    ensures ScreenTimeColor(UsageStatus(totalMinutes)) == Red <==> totalMinutes > 120
    ensures ScreenTimeColor(UsageStatus(totalMinutes)) == Green <==> totalMinutes <= 60
  {
  }

  /** The distance card shows the no-data text and grey exactly when the
      child has no distance check, and yellow exactly when the latest one is
      closer than 30 cm. */
  lemma DistanceCardIff(checks: seq<DistanceCheck>, nowIso: string)
    ensures var status := ShownDistanceStatus(Some(LatestDistance(checks, nowIso)));
      && (DistanceStatusText(status) == NoDataText <==> checks == [])
      && (DistanceStatusColor(status) == Grey <==> checks == [])
      && (DistanceStatusColor(status) == Yellow <==> checks != [] && checks[0].avgDistanceCm < 30.0)
  {
  }
}
