/** The person-tracking plugin: a bounding box around the pose landmarks,
    padded and clamped to the frame, drawn with a label, and one log line.
    The pose detector is an input: its landmarks arrive already scaled to
    integer pixel coordinates. */
module PersonPlugin {
  import opened Common

  /** One landmark in pixels, `(int(lm.x * w), int(lm.y * h))`. */
  datatype Point = Point(x: int, y: int)

  datatype Box = Box(xMin: int, yMin: int, xMax: int, yMax: int)

  const Pad: int := 20
  const Green: Color := Color(0, 255, 0)
  const DetectedLine: string := "Person Detected"

  /** The min/max fold over the landmarks, started from `x_min, x_max = w, 0`
      and `y_min, y_max = h, 0`. */
  function FoldBox(w: int, h: int, pts: seq<Point>): Box
    decreases |pts|
  {
    if pts == [] then Box(w, h, 0, 0)
    else
      var b := FoldBox(w, h, pts[..|pts| - 1]);
      var p := pts[|pts| - 1];
      Box(if p.x < b.xMin then p.x else b.xMin, if p.y < b.yMin then p.y else b.yMin,
          if p.x > b.xMax then p.x else b.xMax, if p.y > b.yMax then p.y else b.yMax)
  }

  /** The smallest and largest coordinates of a non-empty run of landmarks. */
  function MinX(pts: seq<Point>): int
    requires pts != []
    decreases |pts|
  {
    if |pts| == 1 then pts[0].x else Min(pts[0].x, MinX(pts[1..]))
  }

  function MaxX(pts: seq<Point>): int
    requires pts != []
    decreases |pts|
  {
    if |pts| == 1 then pts[0].x else Max(pts[0].x, MaxX(pts[1..]))
  }

  function MinY(pts: seq<Point>): int
    requires pts != []
    decreases |pts|
  {
    if |pts| == 1 then pts[0].y else Min(pts[0].y, MinY(pts[1..]))
  }

  function MaxY(pts: seq<Point>): int
    requires pts != []
    decreases |pts|
  {
    if |pts| == 1 then pts[0].y else Max(pts[0].y, MaxY(pts[1..]))
  }

  /** Taking the last landmark off a run: the extremes of the run are those of
      the shorter run combined with the last point. */
  lemma {:induction false} ExtremesSnoc(pts: seq<Point>)
    requires |pts| >= 2
    ensures MinX(pts) == Min(MinX(pts[..|pts| - 1]), pts[|pts| - 1].x)
    ensures MaxX(pts) == Max(MaxX(pts[..|pts| - 1]), pts[|pts| - 1].x)
    ensures MinY(pts) == Min(MinY(pts[..|pts| - 1]), pts[|pts| - 1].y)
    ensures MaxY(pts) == Max(MaxY(pts[..|pts| - 1]), pts[|pts| - 1].y)
    decreases |pts|
  {
    var tail := pts[1..];
    if |pts| > 2 {
      ExtremesSnoc(tail);
      assert tail[..|tail| - 1] == pts[..|pts| - 1][1..];
    } else {
      assert tail[..|tail| - 1] == [];
    }
  }

  /** With at least one landmark, the fold computes `x_min = min(w, min xs)`,
      `x_max = max(0, max xs)`, and likewise with `h` for y. */
  lemma {:induction false} FoldBoxExtremes(w: int, h: int, pts: seq<Point>)
    requires pts != []
    ensures FoldBox(w, h, pts) == Box(Min(w, MinX(pts)), Min(h, MinY(pts)), Max(0, MaxX(pts)), Max(0, MaxY(pts)))
    decreases |pts|
  {
    if |pts| >= 2 {
      FoldBoxExtremes(w, h, pts[..|pts| - 1]);
      ExtremesSnoc(pts);
    }
  }

  /** Every landmark lies between a run's extremes. */
  lemma {:induction false} ExtremesBound(pts: seq<Point>)
    requires pts != []
    ensures forall i :: 0 <= i < |pts| ==> MinX(pts) <= pts[i].x <= MaxX(pts) && MinY(pts) <= pts[i].y <= MaxY(pts)
    decreases |pts|
  {
    if |pts| > 1 {
      ExtremesBound(pts[1..]);
      forall i | 1 <= i < |pts| ensures pts[i] == pts[1..][i - 1] { }
    }
  }

  /** Before padding, with at least one landmark, `x_min <= x_max` and `y_min <= y_max`. */
  lemma FoldBoxOrdered(w: int, h: int, pts: seq<Point>)
    requires pts != []
    ensures FoldBox(w, h, pts).xMin <= FoldBox(w, h, pts).xMax
    ensures FoldBox(w, h, pts).yMin <= FoldBox(w, h, pts).yMax
  {
    FoldBoxExtremes(w, h, pts);
    ExtremesBound(pts);
  }

  /** The box grown by `Pad` on every side, then clamped to the frame. */
  function Padded(b: Box, w: int, h: int): (r: Box)
    ensures r.xMin >= 0 && r.yMin >= 0 && r.xMax <= w && r.yMax <= h
    ensures r.xMin >= b.xMin - Pad && r.xMax <= b.xMax + Pad
    ensures r.yMin >= b.yMin - Pad && r.yMax <= b.yMax + Pad
    ensures 0 <= b.xMin - Pad ==> r.xMin == b.xMin - Pad
    ensures b.xMin - Pad < 0 ==> r.xMin == 0
    ensures b.xMax + Pad <= w ==> r.xMax == b.xMax + Pad
    ensures w < b.xMax + Pad ==> r.xMax == w
    ensures 0 <= b.yMin - Pad ==> r.yMin == b.yMin - Pad
    ensures b.yMin - Pad < 0 ==> r.yMin == 0
    ensures b.yMax + Pad <= h ==> r.yMax == b.yMax + Pad
    ensures h < b.yMax + Pad ==> r.yMax == h
  {
    Box(Max(0, b.xMin - Pad), Max(0, b.yMin - Pad), Min(w, b.xMax + Pad), Min(h, b.yMax + Pad))
  }

  /** The box drawn for a non-empty run of landmarks. */
  function PersonBox(w: int, h: int, pts: seq<Point>): Box {
    Padded(FoldBox(w, h, pts), w, h)
  }

  /** After padding and clamping, the box lies within the frame and is not
      inverted: `0 <= x_min <= x_max <= w`, `0 <= y_min <= y_max <= h`. */
  lemma PersonBoxInFrame(w: int, h: int, pts: seq<Point>)
    requires w >= 0 && h >= 0 && pts != []
    ensures var b := PersonBox(w, h, pts);
      0 <= b.xMin <= b.xMax <= w && 0 <= b.yMin <= b.yMax <= h
  {
    FoldBoxOrdered(w, h, pts);
    FoldBoxExtremes(w, h, pts);
  }

  /** The padded box contains every landmark that lies inside the frame. */
  lemma PersonBoxCovers(w: int, h: int, pts: seq<Point>)
    requires pts != []
    ensures forall i :: 0 <= i < |pts| && 0 <= pts[i].x <= w && 0 <= pts[i].y <= h ==>
      var b := PersonBox(w, h, pts);
      b.xMin <= pts[i].x <= b.xMax && b.yMin <= pts[i].y <= b.yMax
  {
    FoldBoxExtremes(w, h, pts);
    ExtremesBound(pts);
  }

  /** The frame as returned for landmarks `pts`: unchanged without landmarks,
      else with the green box and the "Person" label above its corner. */
  function Annotated(frame: Frame, pts: seq<Point>): Frame {
    if pts == [] then frame
    else
      var b := PersonBox(frame.width, frame.height, pts);
      Draw(Draw(frame, Rect(b.xMin, b.yMin, b.xMax, b.yMax, Green)), Label("Person", b.xMin, b.yMin - 10, Green))
  }

  /** `process_frame`. `landmarks` is None when the detector found no pose. */
  method ProcessFrame(frame: Option<Frame>, landmarks: Option<seq<Point>>) returns (out: Option<Frame>, logs: seq<string>)
    ensures frame.None? ==> out.None? && logs == []
    ensures frame.Some? && landmarks.None? ==> out == frame && logs == []
    ensures frame.Some? && landmarks.Some? ==> out == Some(Annotated(frame.value, landmarks.value))
    ensures logs == (if frame.Some? && landmarks.Some? && landmarks.value != [] then [DetectedLine] else [])
  {
    if frame.None? {
      return None, [];
    }
    logs := [];
    var f := frame.value;
    if landmarks.None? {
      return frame, logs;
    }
    var pts := landmarks.value;
    var h, w := f.height, f.width;
    var xMin, xMax := w, 0;
    var yMin, yMax := h, 0;
    var detected := false;
    var i := 0;
    while i < |pts|
      invariant 0 <= i <= |pts|
      invariant Box(xMin, yMin, xMax, yMax) == FoldBox(w, h, pts[..i])
      invariant detected <==> i > 0
    {
      assert pts[..i + 1][..i] == pts[..i];
      var x, y := pts[i].x, pts[i].y;
      if x < xMin { xMin := x; }
      if x > xMax { xMax := x; }
      if y < yMin { yMin := y; }
      if y > yMax { yMax := y; }
      detected := true;
      i := i + 1;
    }
    assert pts[..|pts|] == pts;
    if detected {
      xMin := Max(0, xMin - Pad);
      xMax := Min(w, xMax + Pad);
      yMin := Max(0, yMin - Pad);
      yMax := Min(h, yMax + Pad);
      f := Draw(f, Rect(xMin, yMin, xMax, yMax, Green));
      f := Draw(f, Label("Person", xMin, yMin - 10, Green));
      logs := logs + [DetectedLine];
    }
    out := Some(f);
  }
}
