/** The vision part of the record dashboard: how the eye tests sent by the
    server become chart readings, and how the chart merges the readings of
    one day into one row and orders the rows. */
module RecordVision {
  import opened Wrappers

  // ---------------------------------------------------------------------------
  // From eye tests to readings

  /** The result of `parseFloat` on an eye value: a number, or NaN when the
      text does not start with one. */
  datatype Parsed = NaN | Num(value: real)

  /** `parseFloat(x) || null`: NaN and 0 are falsy, so both become null. */
  function OrNull(p: Parsed): (v: Option<real>)
    ensures v.Some? <==> p.Num? && p.value != 0.0
    ensures v.Some? ==> v.value == p.value
  {
    if p.Num? && p.value != 0.0 then Some(p.value) else None
  }

  /** A calendar date in the viewer's time zone. */
  datatype Date = Date(year: int, month: int, day: int)

  /** An eye test as the server sends it; `checkTime` is the instant the
      check date denotes, in milliseconds. */
  datatype EyeTest = EyeTest(
    checkDate: Date,
    checkTime: int,
    rightEye: Parsed,
    leftEye: Parsed,
    testDistanceCm: int)

  /** A chart reading: the four eye/distance values, each possibly null. */
  datatype VisionData = VisionData(
    testDate: Date,
    time: int,
    right30: Option<real>,
    left30: Option<real>,
    right3m: Option<real>,
    left3m: Option<real>)

  /** The four value columns of a reading and of a chart row. */
  datatype Field = Right30 | Left30 | Right3m | Left3m

  function Get(v: VisionData, f: Field): Option<real> {
    match f
    case Right30 => v.right30
    case Left30 => v.left30
    case Right3m => v.right3m
    case Left3m => v.left3m
  }

  predicate Is30cm(f: Field) {
    f == Right30 || f == Left30
  }

  /** The reading of one test: a test taken at 30 cm fills only the two
      30 cm fields, one taken at 300 cm only the two 3 m fields, and a test at
      any other distance none. */
  function MapEyeTest(t: EyeTest): (v: VisionData)
    ensures v.testDate == t.checkDate && v.time == t.checkTime
    ensures forall f :: Get(v, f).Some? ==>
      if Is30cm(f) then t.testDistanceCm == 30 else t.testDistanceCm == 300
    ensures t.testDistanceCm == 30 ==> v.right30 == OrNull(t.rightEye) && v.left30 == OrNull(t.leftEye)
    ensures t.testDistanceCm == 300 ==> v.right3m == OrNull(t.rightEye) && v.left3m == OrNull(t.leftEye)
  {
    var at30 := t.testDistanceCm == 30;
    var at300 := t.testDistanceCm == 300;
    VisionData(
      t.checkDate,
      t.checkTime,
      if at30 then OrNull(t.rightEye) else None,
      if at30 then OrNull(t.leftEye) else None,
      if at300 then OrNull(t.rightEye) else None,
      if at300 then OrNull(t.leftEye) else None)
  }

  /** The `map` over the server's tests, which come newest first. */
  function MapEyeTests(tests: seq<EyeTest>): (data: seq<VisionData>)
    ensures |data| == |tests|
    ensures forall i :: 0 <= i < |tests| ==> data[i] == MapEyeTest(tests[i])
  {
    if tests == [] then [] else [MapEyeTest(tests[0])] + MapEyeTests(tests[1..])
  }

  // ---------------------------------------------------------------------------
  // The chart window

  datatype Period = Weekly | Monthly

  const DayMs: int := 86_400_000

  function WindowDays(period: Period): (days: int)
    ensures days == 7 || days == 30
  {
    if period == Weekly then 7 else 30
  }

  /** `startDate`: the same time of day `days - 1` days before now. */
  function StartTime(now: int, period: Period): (start: int)
    ensures start <= now
    ensures now - start == (WindowDays(period) - 1) * DayMs
  {
    now - (WindowDays(period) - 1) * DayMs
  }

  // ---------------------------------------------------------------------------
  // Merging the readings of one day

  /** The chart's date key: month and day, without the year. */
  datatype MonthDay = MonthDay(month: int, day: int)

  function KeyOf(d: Date): MonthDay {
    MonthDay(d.month, d.day)
  }

  /** A chart row: the date that created it and one value per column. */
  datatype Row = Row(
    date: Date,
    right30: Option<real>,
    left30: Option<real>,
    right3m: Option<real>,
    left3m: Option<real>)

  function RowGet(r: Row, f: Field): Option<real> {
    match f
    case Right30 => r.right30
    case Left30 => r.left30
    case Right3m => r.right3m
    case Left3m => r.left3m
  }

  /** A reading the chart counts for key `k`: inside the window and on that day. */
  predicate Counts(v: VisionData, k: MonthDay, startTime: int) {
    v.time >= startTime && KeyOf(v.testDate) == k
  }

  /** The newest non-null value of column `f` among the counted readings of
      day `k`; readings are listed newest first. */
  function LatestField(items: seq<VisionData>, k: MonthDay, startTime: int, f: Field): Option<real>
  {
    if items == [] then None
    else if Counts(items[0], k, startTime) && Get(items[0], f).Some? then Get(items[0], f)
    else LatestField(items[1..], k, startTime, f)
  }

  /** The date of the oldest counted reading of day `k`, the one that creates
      its row; None when the day has no counted reading. */
  function OldestDate(items: seq<VisionData>, k: MonthDay, startTime: int): (d: Option<Date>)
    ensures d.Some? ==> KeyOf(d.value) == k
  {
    if items == [] then None
    else if OldestDate(items[1..], k, startTime).Some? then OldestDate(items[1..], k, startTime)
    else if Counts(items[0], k, startTime) then Some(items[0].testDate)
    else None
  }

  /** A day has a row exactly when one of its readings is in the window. */
  lemma {:induction false} OldestDateIff(items: seq<VisionData>, k: MonthDay, startTime: int)
    ensures OldestDate(items, k, startTime).Some? <==>
      exists i :: 0 <= i < |items| && Counts(items[i], k, startTime)
  {
    if items != [] {
      OldestDateIff(items[1..], k, startTime);
      if exists i :: 0 <= i < |items| && Counts(items[i], k, startTime) {
        var i :| 0 <= i < |items| && Counts(items[i], k, startTime);
        if i > 0 {
          assert items[1..][i - 1] == items[i];
        }
      }
      if exists i :: 0 <= i < |items[1..]| && Counts(items[1..][i], k, startTime) {
        var i :| 0 <= i < |items[1..]| && Counts(items[1..][i], k, startTime);
        assert items[i + 1] == items[1..][i];
      }
    }
  }

  /** A day with a value in some column has a row. */
  lemma {:induction false} LatestImpliesOldest(items: seq<VisionData>, k: MonthDay, startTime: int, f: Field)
    ensures LatestField(items, k, startTime, f).Some? ==> OldestDate(items, k, startTime).Some?
  {
    if items != [] {
      LatestImpliesOldest(items[1..], k, startTime, f);
    }
  }

  /** A column of a day's row is null only when no counted reading of that
      day has a value in it; otherwise it holds the newest such value. */
  lemma {:induction false} LatestFieldIsNewest(items: seq<VisionData>, k: MonthDay, startTime: int, f: Field)
    ensures LatestField(items, k, startTime, f).None? <==>
      forall i :: 0 <= i < |items| && Counts(items[i], k, startTime) ==> Get(items[i], f).None?
    ensures LatestField(items, k, startTime, f).Some? ==>
      exists i :: 0 <= i < |items| && Counts(items[i], k, startTime)
        && Get(items[i], f) == LatestField(items, k, startTime, f)
        && forall j :: 0 <= j < i && Counts(items[j], k, startTime) ==> Get(items[j], f).None?
  {
    if items != [] {
      var rest := items[1..];
      LatestFieldIsNewest(rest, k, startTime, f);
      forall i | 1 <= i < |items| ensures items[i] == rest[i - 1] { }
      if !(Counts(items[0], k, startTime) && Get(items[0], f).Some?) && LatestField(rest, k, startTime, f).Some? {
        var i :| 0 <= i < |rest| && Counts(rest[i], k, startTime)
          && Get(rest[i], f) == LatestField(rest, k, startTime, f)
          && forall j :: 0 <= j < i && Counts(rest[j], k, startTime) ==> Get(rest[j], f).None?;
        assert items[i + 1] == rest[i];
      }
    }
  }

  // ---------------------------------------------------------------------------
  // Ordering the rows

  /** The row order: the source's comparator uses month, then day; the
      calendar order uses the year first. */
  datatype Order = MonthDayOrder | CalendarOrder

  predicate Le(o: Order, a: Date, b: Date) {
    var monthDay := a.month < b.month || (a.month == b.month && a.day <= b.day);
    match o
    case MonthDayOrder => monthDay
    case CalendarOrder => a.year < b.year || (a.year == b.year && monthDay)
  }

  ghost predicate Sorted(o: Order, rows: seq<Row>) {
    forall i, j :: 0 <= i < j < |rows| ==> Le(o, rows[i].date, rows[j].date)
  }

  /** No two rows share a date key. */
  ghost predicate Distinct(rows: seq<Row>) {
    forall i, j :: 0 <= i < j < |rows| ==> KeyOf(rows[i].date) != KeyOf(rows[j].date)
  }

  function Keys(rows: seq<Row>): set<MonthDay> {
    set r | r in rows :: KeyOf(r.date)
  }

  function Insert(o: Order, x: Row, rows: seq<Row>): seq<Row> {
    if rows == [] then [x]
    else if Le(o, x.date, rows[0].date) then [x] + rows
    else [rows[0]] + Insert(o, x, rows[1..])
  }

  /** The chart's `sort`. The comparator never answers 0 for two rows with
      different keys, so on distinct keys any correct sort gives this order. */
  function SortRows(o: Order, rows: seq<Row>): seq<Row> {
    if rows == [] then [] else Insert(o, rows[0], SortRows(o, rows[1..]))
  }

  lemma {:induction false} InsertPerm(o: Order, x: Row, rows: seq<Row>)
    ensures multiset(Insert(o, x, rows)) == multiset(rows) + multiset{x}
  {
    if rows != [] && !Le(o, x.date, rows[0].date) {
      InsertPerm(o, x, rows[1..]);
      assert rows == [rows[0]] + rows[1..];
    }
  }

  lemma {:induction false} InsertSorted(o: Order, x: Row, rows: seq<Row>)
    requires Sorted(o, rows)
    ensures Sorted(o, Insert(o, x, rows))
  {
    if rows != [] && !Le(o, x.date, rows[0].date) {
      var head, tail := rows[0], rows[1..];
      InsertSorted(o, x, tail);
      InsertPerm(o, x, tail);
      var inserted := Insert(o, x, tail);
      forall y | y in inserted ensures Le(o, head.date, y.date) {
        assert y in multiset(inserted);
        if y != x {
          assert y in multiset(tail);
          var j :| 0 <= j < |tail| && tail[j] == y;
          assert rows[j + 1] == y;
        }
      }
      var r := [head] + inserted;
      forall i, j | 0 <= i < j < |r| ensures Le(o, r[i].date, r[j].date) {
        assert r[j] == inserted[j - 1];
        if i > 0 {
          assert r[i] == inserted[i - 1];
        }
      }
    } else if rows != [] {
      var r := [x] + rows;
      forall i, j | 0 <= i < j < |r| ensures Le(o, r[i].date, r[j].date) {
        assert r[j] == rows[j - 1];
        if i > 0 {
          assert r[i] == rows[i - 1];
        }
      }
    }
  }

  /** Keys depend only on which rows occur. */
  lemma KeysOfMultiset(a: seq<Row>, b: seq<Row>)
    requires multiset(a) == multiset(b)
    ensures Keys(a) == Keys(b)
  {
    forall y | y in a ensures y in b {
      assert y in multiset(a);
    }
    forall y | y in b ensures y in a {
      assert y in multiset(b);
    }
  }

  lemma KeysCons(x: Row, rows: seq<Row>)
    ensures Keys([x] + rows) == {KeyOf(x.date)} + Keys(rows)
  {
    var r := [x] + rows;
    forall y | y in r ensures y == x || y in rows {
      var j :| 0 <= j < |r| && r[j] == y;
      if j > 0 { assert rows[j - 1] == y; }
    }
  }

  lemma DistinctCons(x: Row, rows: seq<Row>)
    requires Distinct(rows) && KeyOf(x.date) !in Keys(rows)
    ensures Distinct([x] + rows)
  {
    var r := [x] + rows;
    forall i, j | 0 <= i < j < |r| ensures KeyOf(r[i].date) != KeyOf(r[j].date) {
      assert r[j] == rows[j - 1] && r[j] in rows;
      if i > 0 {
        assert r[i] == rows[i - 1];
      }
    }
  }

  lemma {:induction false} InsertDistinct(o: Order, x: Row, rows: seq<Row>)
    requires Distinct(rows) && KeyOf(x.date) !in Keys(rows)
    ensures Distinct(Insert(o, x, rows))
    ensures Keys(Insert(o, x, rows)) == Keys(rows) + {KeyOf(x.date)}
  {
    if rows == [] {
    } else if Le(o, x.date, rows[0].date) {
      DistinctCons(x, rows);
      KeysCons(x, rows);
    } else {
      var head, tail := rows[0], rows[1..];
      assert rows == [head] + tail;
      KeysCons(head, tail);
      assert Distinct(tail);
      InsertDistinct(o, x, tail);
      assert KeyOf(head.date) !in Keys(tail) by {
        forall y | y in tail ensures KeyOf(y.date) != KeyOf(head.date) {
          var j :| 0 <= j < |tail| && tail[j] == y;
          assert rows[j + 1] == y;
        }
      }
      DistinctCons(head, Insert(o, x, tail));
      KeysCons(head, Insert(o, x, tail));
    }
  }

  /** Sorting rows with distinct keys gives a sorted permutation of them,
      still with distinct keys. */
  lemma {:induction false} SortFacts(o: Order, rows: seq<Row>)
    requires Distinct(rows)
    ensures var r := SortRows(o, rows);
      Sorted(o, r) && Distinct(r) && multiset(r) == multiset(rows) && Keys(r) == Keys(rows)
  {
    if rows != [] {
      var head, tail := rows[0], rows[1..];
      assert rows == [head] + tail;
      assert Distinct(tail);
      SortFacts(o, tail);
      var sorted := SortRows(o, tail);
      KeysCons(head, tail);
      assert KeyOf(head.date) !in Keys(tail) by {
        forall y | y in tail ensures KeyOf(y.date) != KeyOf(head.date) {
          var j :| 0 <= j < |tail| && tail[j] == y;
          assert rows[j + 1] == y;
        }
      }
      InsertPerm(o, head, sorted);
      InsertSorted(o, head, sorted);
      InsertDistinct(o, head, sorted);
    }
  }

  /** `groups` is the `groupedData` of `items`: one row per day with a
      counted reading, created by its oldest one, holding per column the
      newest non-null value. */
  ghost predicate Grouped(groups: map<MonthDay, Row>, items: seq<VisionData>, startTime: int) {
    forall k ::
      && (k in groups <==> OldestDate(items, k, startTime).Some?)
      && (k in groups ==> Some(groups[k].date) == OldestDate(items, k, startTime))
      && (k in groups ==> forall f :: RowGet(groups[k], f) == LatestField(items, k, startTime, f))
  }

  /** Processing one older reading, outside the window: nothing changes. */
  lemma GroupedSkip(groups: map<MonthDay, Row>, items: seq<VisionData>, startTime: int)
    requires items != [] && items[0].time < startTime && Grouped(groups, items[1..], startTime)
    ensures Grouped(groups, items, startTime)
  {
  }

  /** Processing one older reading inside the window: its day's row is
      created if missing, and each of its non-null values overwrites. */
  lemma GroupedStep(groups: map<MonthDay, Row>, items: seq<VisionData>, startTime: int, row: Row)
    requires items != [] && items[0].time >= startTime && Grouped(groups, items[1..], startTime)
    requires var k := KeyOf(items[0].testDate);
      && row.date == (if k in groups then groups[k].date else items[0].testDate)
      && (forall f :: RowGet(row, f) ==
            if Get(items[0], f).Some? then Get(items[0], f)
            else if k in groups then RowGet(groups[k], f) else None)
    ensures Grouped(groups[KeyOf(items[0].testDate) := row], items, startTime)
  {
    var k := KeyOf(items[0].testDate);
    var rest := items[1..];
    var updated := groups[k := row];
    assert OldestDate(items, k, startTime) == Some(row.date) by {
      if k !in groups {
        assert OldestDate(rest, k, startTime).None?;
      }
    }
    forall f ensures RowGet(row, f) == LatestField(items, k, startTime, f) {
      if k !in groups && Get(items[0], f).None? {
        LatestImpliesOldest(rest, k, startTime, f);
      }
    }
    forall other | other != k
      ensures OldestDate(items, other, startTime) == OldestDate(rest, other, startTime)
      ensures forall f :: LatestField(items, other, startTime, f) == LatestField(rest, other, startTime, f)
    {
      assert !Counts(items[0], other, startTime);
    }
  }

  /** The `forEach` that fills `groupedData`: the readings are visited
      oldest first (the reversed copy) and those outside the window skipped.
      `order` lists the keys in the order they were created. */
  method BuildGroups(items: seq<VisionData>, startTime: int)
    returns (groups: map<MonthDay, Row>, order: seq<MonthDay>)
    ensures Grouped(groups, items, startTime)
    ensures forall k :: k in groups <==> k in order
    ensures forall a, b :: 0 <= a < b < |order| ==> order[a] != order[b]
  {
    groups := map[];
    order := [];
    var i := |items|;
    while i > 0
      invariant 0 <= i <= |items|
      invariant Grouped(groups, items[i..], startTime)
      invariant forall k :: k in groups <==> k in order
      invariant forall a, b :: 0 <= a < b < |order| ==> order[a] != order[b]
    {
      i := i - 1;
      var item := items[i];
      assert items[i..][0] == item && items[i..][1..] == items[i + 1..];
      if item.time >= startTime {
        var k := KeyOf(item.testDate);
        var row := if k in groups then groups[k] else Row(item.testDate, None, None, None, None);
        if k !in groups {
          order := order + [k];
        }
        if item.right30 != None { row := row.(right30 := item.right30); }
        if item.left30 != None { row := row.(left30 := item.left30); }
        if item.right3m != None { row := row.(right3m := item.right3m); }
        if item.left3m != None { row := row.(left3m := item.left3m); }
        GroupedStep(groups, items[i..], startTime, row);
        groups := groups[k := row];
      } else {
        GroupedSkip(groups, items[i..], startTime);
      }
    }
  }

  /** `Object.values(groupedData)`: the rows in the order their keys were created. */
  function Values(groups: map<MonthDay, Row>, order: seq<MonthDay>): (rows: seq<Row>)
    requires forall k :: k in order ==> k in groups
    ensures |rows| == |order|
    ensures forall j :: 0 <= j < |order| ==> rows[j] == groups[order[j]]
  {
    seq(|order|, j requires 0 <= j < |order| => groups[order[j]])
  }

  lemma ValuesFacts(groups: map<MonthDay, Row>, order: seq<MonthDay>, items: seq<VisionData>, startTime: int)
    requires Grouped(groups, items, startTime)
    requires forall k :: k in groups <==> k in order
    requires forall a, b :: 0 <= a < b < |order| ==> order[a] != order[b]
    ensures var rows := Values(groups, order);
      && Distinct(rows)
      && (forall k :: k in Keys(rows) <==> OldestDate(items, k, startTime).Some?)
      && (forall r :: r in rows ==> KeyOf(r.date) in groups && r == groups[KeyOf(r.date)])
  {
    var rows := Values(groups, order);
    assert forall j :: 0 <= j < |order| ==> KeyOf(rows[j].date) == order[j];
    forall k | OldestDate(items, k, startTime).Some? ensures k in Keys(rows) {
      var j :| 0 <= j < |order| && order[j] == k;
      assert rows[j] in rows;
    }
  }

  /** The chart data: `Object.values(groupedData)` put in order `o`. */
  method GroupByDay(items: seq<VisionData>, startTime: int, o: Order) returns (rows: seq<Row>)
    ensures Sorted(o, rows) && Distinct(rows)
    ensures forall k :: k in Keys(rows) <==> OldestDate(items, k, startTime).Some?
    ensures forall r :: r in rows ==> Some(r.date) == OldestDate(items, KeyOf(r.date), startTime)
    ensures forall r, f :: r in rows ==> RowGet(r, f) == LatestField(items, KeyOf(r.date), startTime, f)
  {
    var groups, order := BuildGroups(items, startTime);
    var merged := Values(groups, order);
    ValuesFacts(groups, order, items, startTime);
    SortFacts(o, merged);
    rows := SortRows(o, merged);
    forall r | r in rows ensures r in merged {
      assert r in multiset(rows);
    }
  }

  /** Rows ordered by month and day put a New Year's Eve reading after a
      New Year's Day reading, against the calendar. */
  lemma NewYearOrder()
    ensures var dec := Row(Date(2024, 12, 31), Some(1.0), None, None, None);
      var jan := Row(Date(2025, 1, 1), Some(1.0), None, None, None);
      && SortRows(MonthDayOrder, [dec, jan]) == [jan, dec]
      && SortRows(CalendarOrder, [dec, jan]) == [dec, jan]
  {
    var dec := Row(Date(2024, 12, 31), Some(1.0), None, None, None);
    var jan := Row(Date(2025, 1, 1), Some(1.0), None, None, None);
    assert [dec, jan][1..] == [jan] && [jan][1..] == [];
    assert SortRows(MonthDayOrder, [jan]) == [jan];
    assert SortRows(CalendarOrder, [jan]) == [jan];
    assert Insert(MonthDayOrder, dec, [jan]) == [jan] + Insert(MonthDayOrder, dec, []);
  }

  /** Within one year the two orders agree: the month/day comparator goes
      wrong only when the window spans New Year. */
  lemma SameYearOrdersAgree(rows: seq<Row>)
    requires forall i :: 0 <= i < |rows| ==> rows[i].date.year == rows[0].date.year
    ensures Sorted(MonthDayOrder, rows) <==> Sorted(CalendarOrder, rows)
  {
  }

  /** With the calendar order, the rows of any two different days are in
      chronological order. */
  lemma CalendarOrderChronological(rows: seq<Row>, i: int, j: int)
    requires Sorted(CalendarOrder, rows) && Distinct(rows) && 0 <= i < j < |rows|
    ensures rows[i].date.year < rows[j].date.year
      || (rows[i].date.year == rows[j].date.year && rows[i].date.month < rows[j].date.month)
      || (rows[i].date.year == rows[j].date.year && rows[i].date.month == rows[j].date.month
          && rows[i].date.day < rows[j].date.day)
  {
  }
}
