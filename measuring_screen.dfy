/** The measuring screen of the distance checker: every 100 ms the largest
    detected face gives one distance reading; the last ten readings are kept
    in a buffer whose rounded mean is shown, and after fifty readings the
    interval stops and the mean is reported. */
module MeasuringScreen {
  import opened Wrappers

  const BufferSize: nat := 10
  const MaxMeasurements: nat := 50

  /** A detected face: its box, and the distance `estimateDistance` gives for
      its width (that estimate is computed outside this model). */
  datatype Face = Face(width: int, height: int, distanceCm: int)

  function Area(f: Face): int {
    f.width * f.height
  }

  /** The index of the face `reduce` keeps: the previous choice survives only
      when its area is strictly larger, so the last of several largest faces wins. */
  function LargestIndex(faces: seq<Face>): (k: nat)
    requires |faces| > 0
    ensures k < |faces|
    ensures forall j :: 0 <= j < |faces| ==> Area(faces[j]) <= Area(faces[k])
    ensures forall j :: k < j < |faces| ==> Area(faces[j]) < Area(faces[k])
  {
    if |faces| == 1 then 0
    else
      var k := LargestIndex(faces[..|faces| - 1]);
      if Area(faces[k]) > Area(faces[|faces| - 1]) then k else |faces| - 1
  }

  function Sum(s: seq<int>): int {
    if s == [] then 0 else Sum(s[..|s| - 1]) + s[|s| - 1]
  }

  /** `Math.round(sum / n)`: JavaScript rounds halves up, i.e. takes
      floor(x + 1/2), which for x = sum/n is floor((2 sum + n) / (2 n)). */
  function RoundedMean(buffer: seq<int>): int
    requires |buffer| > 0
  {
    (2 * Sum(buffer) + |buffer|) / (2 * |buffer|)
  }

  ghost predicate Bounds(s: seq<int>, lo: int, hi: int) {
    forall i :: 0 <= i < |s| ==> lo <= s[i] <= hi
  }

  lemma {:induction false} SumBounds(s: seq<int>, lo: int, hi: int)
    requires Bounds(s, lo, hi)
    ensures |s| * lo <= Sum(s) <= |s| * hi
  {
    if s != [] {
      SumBounds(s[..|s| - 1], lo, hi);
      assert (|s| - 1) * lo + lo == |s| * lo;
      assert (|s| - 1) * hi + hi == |s| * hi;
    }
  }

  lemma MulCancel(a: int, b: int, d: int)
    requires d > 0 && a * d < b * d
    ensures a < b
  {
    assert (b - a) * d == b * d - a * d;
  }

  lemma QuotientBounds(x: int, d: int, lo: int, hi: int)
    requires d > 0 && lo * d <= x < (hi + 1) * d
    ensures lo <= x / d <= hi
  {
    var q := x / d;
    assert x == q * d + x % d && 0 <= x % d < d;
    assert (q + 1) * d == q * d + d;
    MulCancel(lo, q + 1, d);
    MulCancel(q, hi + 1, d);
  }

  /** The rounded mean lies between the smallest and the largest reading. */
  lemma RoundedMeanBetween(buffer: seq<int>, lo: int, hi: int)
    requires |buffer| > 0 && Bounds(buffer, lo, hi)
    ensures lo <= RoundedMean(buffer) <= hi
  {
    var n := |buffer|;
    SumBounds(buffer, lo, hi);
    assert lo * (2 * n) == 2 * (n * lo);
    assert (hi + 1) * (2 * n) == 2 * (n * hi) + 2 * n;
    QuotientBounds(2 * Sum(buffer) + n, 2 * n, lo, hi);
  }

  /** The last `BufferSize` readings, oldest first. */
  function Window(readings: seq<int>): (w: seq<int>)
    ensures |w| == if |readings| < BufferSize then |readings| else BufferSize
  {
    if |readings| <= BufferSize then readings else readings[|readings| - BufferSize..]
  }

  /** Pushing a reading and shifting when over size keeps the window. */
  lemma WindowPush(readings: seq<int>, x: int)
    ensures var pushed := Window(readings) + [x];
      Window(readings + [x]) == if |pushed| > BufferSize then pushed[1..] else pushed
  {
    var all := readings + [x];
    if |readings| > BufferSize {
      assert all[|all| - BufferSize..] == readings[|readings| - BufferSize..][1..] + [x];
    } else if |readings| == BufferSize {
      assert all[|all| - BufferSize..] == readings[1..] + [x];
    }
  }

  class Measurer {
    var loading: bool
    var distanceBuffer: seq<int>
    var measurementCount: nat
    var progress: int              // percent of the fifty readings taken
    var intervalLive: bool
    var distance: Option<int>      // the estimate on screen
    var message: string
    var reported: Option<int>      // the argument `onComplete` received
    ghost var readings: seq<int>   // every reading taken, oldest first

    ghost predicate Valid()
      reads this
    {
      && distanceBuffer == Window(readings)
      && measurementCount == |readings| <= MaxMeasurements
      && progress == measurementCount * 2
      && (loading ==> readings == [])
      && (distance.Some? <==> readings != [])
      && (distance.Some? ==> distance.value == RoundedMean(distanceBuffer))
      && (reported.Some? <==> measurementCount == MaxMeasurements)
      && (reported.Some? ==> reported == distance)
      && (intervalLive <==> !loading && reported.None?)
    }

    /** The screen as first rendered, while the detector model loads. */
    constructor ()
      ensures Valid() && loading && readings == [] && !intervalLive
      ensures message == "カメラをじゅんびしています..."
    {
      loading := true;
      distanceBuffer := [];
      measurementCount := 0;
      progress := 0;
      intervalLive := false;
      distance := None;
      message := "カメラをじゅんびしています...";
      reported := None;
      readings := [];
    }

    /** The start of `loadModels`, right after the first render. */
    method BeginLoading()
      requires Valid() && loading
      modifies this
      ensures Valid() && loading && readings == old(readings) && !intervalLive
      ensures message == "AIモデルを読み込んでいます..."
    {
      message := "AIモデルを読み込んでいます...";
    }

    /** The end of `loadModels`: on success the camera view appears and the
        interval starts; on failure the screen stays on the loading view with
        an error message. */
    method FinishLoading(loaded: bool)
      requires Valid() && loading
      modifies this
      ensures Valid() && readings == [] && reported == None
      ensures loaded ==> !loading && intervalLive && message == "かおをカメラに向けてね！"
      ensures !loaded ==> loading && !intervalLive && message == "エラーが発生しました。再読み込みしてください。"
    {
      if loaded {
        loading := false;
        intervalLive := true;
        message := "かおをカメラに向けてね！";
      } else {
        message := "エラーが発生しました。再読み込みしてください。";
      }
    }

    /** One firing of the 100 ms interval. `videoReady` is the webcam check
        and `faces` what the detector returned. */
    method OnInterval(videoReady: bool, faces: seq<Face>)
      requires Valid() && intervalLive
      modifies this
      ensures Valid() && !loading
      ensures !videoReady ==> unchanged(this)
      ensures videoReady && faces == [] ==>
        readings == old(readings) && distance == old(distance) && intervalLive
        && message == "かおが見つかりません..."
      ensures videoReady && faces != [] ==>
        && readings == old(readings) + [faces[LargestIndex(faces)].distanceCm]
        && distance == Some(RoundedMean(Window(readings)))
        && message == "はかっています..."
        && (intervalLive <==> |readings| < MaxMeasurements)
        && (!intervalLive ==> reported == distance)
    {
      if !videoReady {
        return;
      }
      if |faces| > 0 {
        var face := faces[LargestIndex(faces)];
        var dist := face.distanceCm;
        WindowPush(readings, dist);
        readings := readings + [dist];
        distanceBuffer := distanceBuffer + [dist];
        if |distanceBuffer| > BufferSize {
          distanceBuffer := distanceBuffer[1..];
        }
        var average := RoundedMean(distanceBuffer);
        distance := Some(average);
        message := "はかっています...";
        measurementCount := measurementCount + 1;
        progress := measurementCount * 2;
        if measurementCount >= MaxMeasurements {
          intervalLive := false;
          reported := Some(average);
        }
      } else {
        message := "かおが見つかりません...";
      }
    }
  }

  /** The buffer always holds the most recent readings: at most ten, as many
      as were taken when fewer, and the shown mean stays between their
      smallest and largest. */
  lemma BufferFacts(readings: seq<int>, lo: int, hi: int)
    requires |readings| > 0 && Bounds(readings, lo, hi)
    ensures |Window(readings)| == if |readings| < BufferSize then |readings| else BufferSize
    ensures Window(readings) == readings[|readings| - |Window(readings)|..]
    ensures lo <= RoundedMean(Window(readings)) <= hi
  {
    var w := Window(readings);
    assert Bounds(w, lo, hi) by {
      forall i | 0 <= i < |w| ensures lo <= w[i] <= hi {
        assert w[i] == readings[|readings| - |w| + i];
      }
    }
    RoundedMeanBetween(w, lo, hi);
  }
}
