/**
 * Reference geometry of the heart-rate graph: where each sample of the
 * history lands on a canvas of a given width and height. Both copies of the
 * graph routine are proved to hand exactly this polyline to the renderer.
 */
module Waveform {
  import opened Options
  import opened Canvas

  /** Heart rate drawn at the top edge of the canvas, in beats per minute. */
  const MaxVal: real := 190.0
  /** Heart rate drawn at the bottom edge of the canvas. */
  const MinVal: real := 50.0

  /**
   * Reference x of vertex `k` out of `count`: the vertices are spread evenly
   * from the left edge (0) to the right edge (`width`); a lone vertex sits on
   * the left edge.
   */
  function XAt(k: nat, count: nat, width: real): real
  {
    if count <= 1 then 0.0 else k as real * width / (count - 1) as real
  }

  /**
   * Reference y of a sample: linear interpolation that puts MaxVal on the top
   * edge (y = 0) and MinVal on the bottom edge (y = height). Screen y grows
   * downwards, so a higher heart rate is drawn higher up.
   */
  function ProjectY(v: int, height: real): real
  {
    (MaxVal - v as real) * height / (MaxVal - MinVal)
  }

  /** The command for sample `v` at position `k`: the first one starts the path. */
  function Vertex(k: nat, v: int, count: nat, width: real, height: real): PathCommand
  {
    if k == 0 then MoveTo(XAt(k, count, width), ProjectY(v, height))
    else LineTo(XAt(k, count, width), ProjectY(v, height))
  }

  /** One vertex per sample, in sample order. */
  function Polyline(samples: seq<int>, width: real, height: real): seq<PathCommand>
  {
    seq(|samples|, k requires 0 <= k < |samples| => Vertex(k, samples[k], |samples|, width, height))
  }

  /** What the graph routine hands to the renderer: nothing at all for an empty history. */
  function Graph(samples: seq<int>, width: real, height: real): Option<seq<PathCommand>>
  {
    if samples == [] then None else Some(Polyline(samples, width, height))
  }

  /** The routine's own formula, `(1 - (v - min) / (max - min)) * height`, is the reference y. */
  lemma SourceYFormula(v: int, height: real)
    ensures (1.0 - ((v as real - MinVal) / (MaxVal - MinVal))) * height == ProjectY(v, height)
  {
  }

  /** The scale ends: 190 bpm is drawn on the top edge, 50 bpm on the bottom edge. */
  lemma ScaleEnds(height: real)
    ensures ProjectY(190, height) == 0.0
    ensures ProjectY(50, height) == height
  {
  }

  /** y is affine in the sample: equal differences in bpm give equal differences in y. */
  lemma ProjectYAffine(v1: int, v2: int, height: real)
    ensures ProjectY(v1, height) - ProjectY(v2, height) == (v2 - v1) as real * height / (MaxVal - MinVal)
  {
  }

  /** On a canvas of positive height a faster heart rate is drawn strictly higher (smaller y). */
  lemma ProjectYStrictlyDecreasing(v1: int, v2: int, height: real)
    requires height > 0.0
    requires v1 < v2
    ensures ProjectY(v2, height) < ProjectY(v1, height)
  {
    ProjectYAffine(v1, v2, height);
    assert (v2 - v1) as real * height > 0.0;
  }

  /** Samples inside the scale land inside the canvas, a zero-height canvas included. */
  lemma ProjectYInRange(v: int, height: real)
    requires height >= 0.0
    requires 50 <= v <= 190
    ensures 0.0 <= ProjectY(v, height) <= height
  {
    var up, down := MaxVal - v as real, v as real - MinVal;
    assert up >= 0.0 && down >= 0.0;
    var above, below := up * height, down * height;
    assert 0.0 <= above && 0.0 <= below;
    assert above + below == (MaxVal - MinVal) * height;
  }

  /**
   * No clamping: on a canvas of positive height, samples above 190 land
   * above the top edge and samples below 50 below the bottom edge.
   */
  lemma ProjectYUnclamped(v: int, height: real)
    requires height > 0.0
    ensures v > 190 ==> ProjectY(v, height) < 0.0
    ensures v < 50 ==> ProjectY(v, height) > height
  {
    ScaleEnds(height);
    if v > 190 { ProjectYStrictlyDecreasing(190, v, height); }
    if v < 50 { ProjectYStrictlyDecreasing(v, 50, height); }
  }

  /**
   * The polyline has one vertex per sample, in input order: vertex 0 is a
   * move, every later vertex a line, and vertex k plots sample k.
   */
  lemma PolylineShape(samples: seq<int>, width: real, height: real)
    ensures |Polyline(samples, width, height)| == |samples|
    ensures samples != [] ==> Polyline(samples, width, height)[0].MoveTo?
    ensures forall k :: 1 <= k < |samples| ==> Polyline(samples, width, height)[k].LineTo?
    ensures forall k :: 0 <= k < |samples| ==>
      Polyline(samples, width, height)[k].x == XAt(k, |samples|, width) &&
      Polyline(samples, width, height)[k].y == ProjectY(samples[k], height)
  {
  }

  /** Nothing is drawn exactly when the history is empty. */
  lemma GraphEmptyIff(samples: seq<int>, width: real, height: real)
    ensures Graph(samples, width, height).None? <==> samples == []
  {
  }

  /** A single sample gives a single move to the left edge, at the height of the sample. */
  lemma SingleSample(v: int, width: real, height: real)
    ensures Graph([v], width, height) == Some([MoveTo(0.0, ProjectY(v, height))])
  {
    assert Polyline([v], width, height) == [MoveTo(0.0, ProjectY(v, height))];
  }

  /** Vertex k of n > 1 lies k steps of `width / (n - 1)` to the right of the left edge. */
  lemma XAtIsMultipleOfStep(k: nat, count: nat, width: real)
    requires count > 1
    ensures XAt(k, count, width) == k as real * (width / (count - 1) as real)
  {
    var d := (count - 1) as real;
    assert d * (width / d) == width;
    assert d * (k as real * width / d) == k as real * width;
    assert d * (k as real * (width / d)) == k as real * width;
  }

  /** With more than one sample the first vertex is on the left edge and the last on the right edge. */
  lemma XEndpoints(samples: seq<int>, width: real, height: real)
    requires |samples| > 1
    ensures Polyline(samples, width, height)[0].x == 0.0
    ensures Polyline(samples, width, height)[|samples| - 1].x == width
  {
    var d := (|samples| - 1) as real;
    assert XAt(|samples| - 1, |samples|, width) == d * width / d;
  }

  /** Vertex j lies at least as far right as vertex i < j, strictly so on a canvas of positive width. */
  lemma XAtMonotone(i: nat, j: nat, count: nat, width: real)
    requires i < j < count
    requires width >= 0.0
    ensures XAt(i, count, width) <= XAt(j, count, width)
    ensures width > 0.0 ==> XAt(i, count, width) < XAt(j, count, width)
  {
    XAtIsMultipleOfStep(i, count, width);
    XAtIsMultipleOfStep(j, count, width);
    var step := width / (count - 1) as real;
    assert step >= 0.0;
    assert width > 0.0 ==> step > 0.0;
    var gap := (j - i) as real;
    assert gap >= 1.0;
    assert XAt(j, count, width) - XAt(i, count, width) == gap * step;
    assert gap * step >= step;
  }

  /** x never decreases along the path, and strictly increases on a canvas of positive width. */
  lemma XMonotone(samples: seq<int>, width: real, height: real)
    requires width >= 0.0
    ensures forall i, j :: 0 <= i < j < |samples| ==>
      Polyline(samples, width, height)[i].x <= Polyline(samples, width, height)[j].x
    ensures width > 0.0 ==> forall i, j :: 0 <= i < j < |samples| ==>
      Polyline(samples, width, height)[i].x < Polyline(samples, width, height)[j].x
  {
    var p := Polyline(samples, width, height);
    forall i, j | 0 <= i < j < |samples|
      ensures p[i].x <= p[j].x
      ensures width > 0.0 ==> p[i].x < p[j].x
    {
      assert p[i].x == XAt(i, |samples|, width);
      assert p[j].x == XAt(j, |samples|, width);
      XAtMonotone(i, j, |samples|, width);
    }
  }

  /** Two worked examples: a two-sample and a three-sample history on fixed canvases. */
  lemma WorkedExamples()
    ensures Graph([70, 190], 100.0, 100.0) == Some([MoveTo(0.0, 600.0 / 7.0), LineTo(100.0, 0.0)])
    ensures Graph([50, 120, 190], 200.0, 100.0) ==
      Some([MoveTo(0.0, 100.0), LineTo(100.0, 50.0), LineTo(200.0, 0.0)])
  {
    assert Polyline([70, 190], 100.0, 100.0) == [MoveTo(0.0, 600.0 / 7.0), LineTo(100.0, 0.0)];
    assert Polyline([50, 120, 190], 200.0, 100.0) ==
      [MoveTo(0.0, 100.0), LineTo(100.0, 50.0), LineTo(200.0, 0.0)];
  }
}
