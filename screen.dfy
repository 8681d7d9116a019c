/**
 * The screens of the watch app that compute something: the guarded
 * heart-rate graph routine, and the reductions the dashboard and the vitals
 * screen apply to the patient's heart-rate history.
 */
module Screen {
  import opened Options
  import opened Canvas
  import opened Waveform

  /**
   * Horizontal distance between neighbouring vertices. A history of one
   * sample gets step 0 rather than a division by zero.
   */
  function StepX(count: nat, width: real): (step: real)
    ensures count <= 1 ==> step == 0.0
    ensures count > 1 ==> (count - 1) as real * step == width
    ensures width >= 0.0 ==> step >= 0.0
  {
    if count > 1 then width / (count - 1) as real else 0.0
  }

  /** `index * stepX` is the reference x of vertex `index`, for every history length. */
  lemma StepXPlacesVertex(index: nat, count: nat, width: real)
    requires index < count
    ensures index as real * StepX(count, width) == XAt(index, count, width)
  {
    if count > 1 {
      XAtIsMultipleOfStep(index, count, width);
    }
  }

  /**
   * The graph routine: returns early on an empty history, otherwise issues
   * one move followed by lines through every sample and hands the path to
   * the renderer. `None` means nothing was drawn.
   */
  method HeartRateGraph(dataPoints: seq<int>, width: real, height: real)
    returns (drawn: Option<seq<PathCommand>>)
    ensures drawn == Graph(dataPoints, width, height)
  {
    if dataPoints == [] {
      drawn := None;
      return;
    }
    var path := new Path();
    var stepX := StepX(|dataPoints|, width);
    var index := 0;
    while index < |dataPoints|
      invariant 0 <= index <= |dataPoints|
      invariant |path.commands| == index
      invariant forall k :: 0 <= k < index ==>
        path.commands[k] == Vertex(k, dataPoints[k], |dataPoints|, width, height)
    {
      var heartRate := dataPoints[index];
      var x := index as real * stepX;
      var normalizedY := 1.0 - ((heartRate as real - MinVal) / (MaxVal - MinVal));
      var y := normalizedY * height;
      StepXPlacesVertex(index, |dataPoints|, width);
      SourceYFormula(heartRate, height);
      if index == 0 {
        path.MoveTo(x, y);
      } else {
        path.LineTo(x, y);
      }
      index := index + 1;
    }
    assert path.commands == Polyline(dataPoints, width, height);
    drawn := Some(path.commands);
  }

  /** Kotlin's `takeLast(n)`: the last `min(n, |s|)` elements, in their original order. */
  function TakeLast<T>(s: seq<T>, n: nat): (r: seq<T>)
    ensures |r| == if n < |s| then n else |s|
    ensures forall k :: 0 <= k < |r| ==> r[k] == s[|s| - |r| + k]
  {
    if n >= |s| then s else s[|s| - n..]
  }

  /** The dashboard's preview graph is drawn from the last five samples. */
  const PreviewLength: nat := 5

  /**
   * The preview graph draws nothing only for an empty history; otherwise it
   * has one vertex per retained sample, and its last vertex plots the newest
   * sample of the whole history.
   */
  lemma PreviewGraph(history: seq<int>, width: real, height: real)
    ensures Graph(TakeLast(history, PreviewLength), width, height).None? <==> history == []
    ensures history != [] ==>
      var p := Graph(TakeLast(history, PreviewLength), width, height).value;
      |p| == (if |history| < PreviewLength then |history| else PreviewLength) &&
      p[|p| - 1].y == ProjectY(history[|history| - 1], height)
  {
    var recent := TakeLast(history, PreviewLength);
    PolylineShape(recent, width, height);
  }

  /** Kotlin's `maxOrNull()`: the largest element, or null for an empty list. */
  function MaxOrNull(s: seq<int>): (r: Option<int>)
    ensures r.None? <==> s == []
    ensures r.Some? ==> r.value in s
    ensures r.Some? ==> forall k :: 0 <= k < |s| ==> s[k] <= r.value
  {
    if s == [] then None
    else match MaxOrNull(s[1..])
      case None => Some(s[0])
      case Some(m) => Some(if m > s[0] then m else s[0])
  }

  /** The two figures under the vitals graph: the current rate and the highest rate seen. */
  datatype Readout = Readout(current: int, highest: Option<int>)

  /**
   * The vitals screen's figures: `last()` for the current rate and
   * `maxOrNull()` for the highest. `last()` is evaluated first and throws on
   * an empty history, so the highest value is never shown as null.
   */
  function VitalsReadout(history: seq<int>): (r: Readout)
    requires history != []
    ensures r.current == history[|history| - 1]
    ensures r.highest.Some? && r.highest.value in history
    ensures forall k :: 0 <= k < |history| ==> history[k] <= r.highest.value
    ensures r.current <= r.highest.value
  {
    Readout(history[|history| - 1], MaxOrNull(history))
  }

  /** The heart-rate history of the mock patient record. */
  const MockHeartRateHistory: seq<int> := [70, 72, 110, 130, 90, 85, 180, 160, 110]

  /** What the screens show for the mock patient. */
  lemma MockPatientScreens(width: real, height: real)
    ensures TakeLast(MockHeartRateHistory, PreviewLength) == [90, 85, 180, 160, 110]
    ensures VitalsReadout(MockHeartRateHistory) == Readout(110, Some(180))
    ensures |Graph(MockHeartRateHistory, width, height).value| == 9
  {
    var h := MockHeartRateHistory;
    assert MaxOrNull(h[8..]) == Some(110);
    assert MaxOrNull(h[7..]) == Some(160);
    assert MaxOrNull(h[6..]) == Some(180);
    assert MaxOrNull(h[5..]) == Some(180);
    assert MaxOrNull(h[4..]) == Some(180);
    assert MaxOrNull(h[3..]) == Some(180);
    assert MaxOrNull(h[2..]) == Some(180);
    assert MaxOrNull(h[1..]) == Some(180);
  }
}
