/**
 * The second, unguarded copy of the heart-rate graph routine. It computes
 * the step as `width / (size - 1)` with nothing keeping the divisor away from
 * zero, so a history of exactly one sample is outside its domain.
 */
module Component {
  import opened Options
  import opened Canvas
  import opened Waveform
  import Screen

  /**
   * Horizontal distance between neighbouring vertices, `width / (size - 1)`
   * as written: defined only where the divisor is not zero.
   */
  function StepX(count: nat, width: real): (step: real)
    requires count != 1
    ensures (count - 1) as real * step == width
  {
    width / (count - 1) as real
  }

  /** For two or more samples this step is the guarded copy's step. */
  lemma AgreesWithScreenStep(count: nat, width: real)
    requires count >= 2
    ensures StepX(count, width) == Screen.StepX(count, width)
  {
  }

  /**
   * The one history length where this copy fails: a single sample gets past
   * the emptiness check, and the divisor of its step is then zero.
   */
  lemma SingleSampleReachesZeroDivisor(dataPoints: seq<int>)
    requires |dataPoints| == 1
    ensures dataPoints != []
    ensures (|dataPoints| - 1) as real == 0.0
  {
  }

  /**
   * The graph routine as in the guarded copy, minus the guard: returns early
   * on an empty history, otherwise one move and then lines through every
   * sample. It draws the same path as `Screen.HeartRateGraph` on every
   * history it accepts.
   */
  method HeartRateGraph(dataPoints: seq<int>, width: real, height: real)
    returns (drawn: Option<seq<PathCommand>>)
    requires |dataPoints| != 1
    ensures drawn == Graph(dataPoints, width, height)
  {
    if dataPoints == [] {
      drawn := None;
      return;
    }
    var path := new Path();
    var stepX := StepX(|dataPoints|, width);
    var index := 0;
    while index < |dataPoints|
      invariant 0 <= index <= |dataPoints|
      invariant |path.commands| == index
      invariant forall k :: 0 <= k < index ==>
        path.commands[k] == Vertex(k, dataPoints[k], |dataPoints|, width, height)
    {
      var heartRate := dataPoints[index];
      var x := index as real * stepX;
      var normalizedY := 1.0 - ((heartRate as real - MinVal) / (MaxVal - MinVal));
      var y := normalizedY * height;
      AgreesWithScreenStep(|dataPoints|, width);
      Screen.StepXPlacesVertex(index, |dataPoints|, width);
      SourceYFormula(heartRate, height);
      if index == 0 {
        path.MoveTo(x, y);
      } else {
        path.LineTo(x, y);
      }
      index := index + 1;
    }
    assert path.commands == Polyline(dataPoints, width, height);
    drawn := Some(path.commands);
  }
}
