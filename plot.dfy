/** Viewport fitting and the plot-to-canvas map of src/plot.ts. Curves and
    the 3D projection are abstract functions; the canvas strokes are not
    modelled, only the numbers handed to them. JavaScript starts the
    bounding accumulators at plus and minus Infinity; here a flag records
    whether any point has been seen yet, and the viewport of no points at
    all (infinite and inverted in JavaScript) is `None`. */
module Plot {
  import opened Common
  import opened Janim

  datatype Point = Point(x: real, y: real)

  /** A parametric curve t -> (x(t), y(t)) over [t0, t1]. */
  datatype Curve = Curve(xFn: real -> real, yFn: real -> real, t0: real, t1: real)

  /** A parametric space curve over [t0, t1]. */
  datatype Curve3D = Curve3D(xFn: real -> real, yFn: real -> real, zFn: real -> real, t0: real, t1: real)

  datatype Viewport = Viewport(minX: real, maxX: real, minY: real, maxY: real)

  /** The canvas rectangle a plot is drawn into. */
  datatype Rect = Rect(x: real, y: real, w: real, h: real)

  /** The measured size of an axis label. */
  datatype LabelSize = LabelSize(width: real, height: real)

  /** Both extents are positive. */
  predicate Proper(v: Viewport)
  {
    v.minX < v.maxX && v.minY < v.maxY
  }

  predicate Inside(v: Viewport, p: Point)
  {
    v.minX <= p.x <= v.maxX && v.minY <= p.y <= v.maxY
  }

  predicate StrictlyInside(v: Viewport, p: Point)
  {
    v.minX < p.x < v.maxX && v.minY < p.y < v.maxY
  }

  // ---------------------------------------------------------------------
  // Sampling: N = 200 steps, so 201 samples with both ends included
  // ---------------------------------------------------------------------

  /** The parameter of sample i of 200 steps over [t0, t1]. */
  function SampleTime(t0: real, t1: real, i: nat): (r: real)
    ensures i == 0 ==> r == t0
    ensures i == 200 ==> r == t1
    ensures t0 <= t1 && i <= 200 ==> t0 <= r <= t1
  {
    if t0 <= t1 && i <= 200 then
      MulMono(0.0, t1 - t0, 0.0, i as real / 200.0);
      MulMono(t1 - t0, t1 - t0, i as real / 200.0, 1.0);
      t0 + (t1 - t0) * (i as real / 200.0)
    else
      t0 + (t1 - t0) * (i as real / 200.0)
  }

  /** Successive samples are one two-hundredth of the range apart. */
  lemma {:induction false} SamplesEvenlySpaced(t0: real, t1: real, i: nat)
    ensures SampleTime(t0, t1, i + 1) - SampleTime(t0, t1, i) == (t1 - t0) / 200.0
  {
    var d := t1 - t0;
    assert (i + 1) as real / 200.0 == i as real / 200.0 + 1.0 / 200.0;
    assert d * ((i + 1) as real / 200.0) == d * (i as real / 200.0) + d * (1.0 / 200.0);
  }

  /** The 201 points a curve is sampled at, first at t0 and last at t1. */
  function SamplePoints(c: Curve): (r: seq<Point>)
    ensures |r| == 201
    ensures r[0] == Point(c.xFn(c.t0), c.yFn(c.t0))
    ensures r[200] == Point(c.xFn(c.t1), c.yFn(c.t1))
    ensures forall i :: 0 <= i < 201 ==> r[i] == Point(c.xFn(SampleTime(c.t0, c.t1, i)), c.yFn(SampleTime(c.t0, c.t1, i)))
  {
    var r := seq(201, i requires 0 <= i < 201 =>
      Point(c.xFn(SampleTime(c.t0, c.t1, i)), c.yFn(SampleTime(c.t0, c.t1, i))));
    assert SampleTime(c.t0, c.t1, 0) == c.t0 && SampleTime(c.t0, c.t1, 200) == c.t1;
    r
  }

  /** The samples of every curve, curve by curve. */
  function AllSamples(curves: seq<Curve>): (r: seq<Point>)
    ensures |r| == 201 * |curves|
  {
    if curves == [] then []
    else AllSamples(curves[..|curves| - 1]) + SamplePoints(curves[|curves| - 1])
  }

  /** Sample i of a space curve, projected to the plane. */
  function ProjectedSample(c: Curve3D, project: (real, real, real) -> Point, i: nat): Point
  {
    var t := SampleTime(c.t0, c.t1, i);
    project(c.xFn(t), c.yFn(t), c.zFn(t))
  }

  /** The projected samples of a space curve. */
  function ProjectedSamples(c: Curve3D, project: (real, real, real) -> Point): (r: seq<Point>)
    ensures |r| == 201
    ensures forall i :: 0 <= i < 201 ==> r[i] == ProjectedSample(c, project, i)
  {
    seq(201, i requires 0 <= i < 201 => ProjectedSample(c, project, i))
  }

  function AllProjectedSamples(curves: seq<Curve3D>, project: (real, real, real) -> Point): (r: seq<Point>)
    ensures |r| == 201 * |curves|
  {
    if curves == [] then []
    else AllProjectedSamples(curves[..|curves| - 1], project) + ProjectedSamples(curves[|curves| - 1], project)
  }

  /** The half-length of each drawn 3D axis. */
  const AXIS_LEN: real := 6.0

  /** The six projected axis endpoints (+x, -x, +y, -y, +z, -z). */
  function AxisEnds(project: (real, real, real) -> Point): (r: seq<Point>)
    ensures |r| == 6
    ensures r[0] == project(AXIS_LEN, 0.0, 0.0) && r[1] == project(-AXIS_LEN, 0.0, 0.0)
    ensures r[2] == project(0.0, AXIS_LEN, 0.0) && r[3] == project(0.0, -AXIS_LEN, 0.0)
    ensures r[4] == project(0.0, 0.0, AXIS_LEN) && r[5] == project(0.0, 0.0, -AXIS_LEN)
  {
    [project(AXIS_LEN, 0.0, 0.0), project(-AXIS_LEN, 0.0, 0.0),
     project(0.0, AXIS_LEN, 0.0), project(0.0, -AXIS_LEN, 0.0),
     project(0.0, 0.0, AXIS_LEN), project(0.0, 0.0, -AXIS_LEN)]
  }

  // ---------------------------------------------------------------------
  // Bounding, widening and padding
  // ---------------------------------------------------------------------

  /** The bounds after one more point: the four comparisons against the
      running minimum and maximum. */
  function Extend(b: Option<Viewport>, p: Point): (r: Option<Viewport>)
    ensures r.Some? && Inside(r.value, p)
    ensures b.None? ==> r.value.minX == r.value.maxX == p.x && r.value.minY == r.value.maxY == p.y
    ensures b.Some? ==> forall q :: Inside(b.value, q) ==> Inside(r.value, q)
    ensures b.Some? ==>
      && (r.value.minX == b.value.minX || r.value.minX == p.x)
      && (r.value.maxX == b.value.maxX || r.value.maxX == p.x)
      && (r.value.minY == b.value.minY || r.value.minY == p.y)
      && (r.value.maxY == b.value.maxY || r.value.maxY == p.y)
  {
    match b
    case None => Some(Viewport(p.x, p.x, p.y, p.y))
    case Some(v) =>
      Some(Viewport(
        if p.x < v.minX then p.x else v.minX,
        if p.x > v.maxX then p.x else v.maxX,
        if p.y < v.minY then p.y else v.minY,
        if p.y > v.maxY then p.y else v.maxY))
  }

  /** The running bounds over a list of points: none for no points,
      otherwise a box with its minimum below its maximum. */
  function BoundsOf(ps: seq<Point>): (r: Option<Viewport>)
    ensures r.None? <==> ps == []
    ensures r.Some? ==> r.value.minX <= r.value.maxX && r.value.minY <= r.value.maxY
  {
    if ps == [] then None
    else Extend(BoundsOf(ps[..|ps| - 1]), ps[|ps| - 1])
  }

  /** The bounds hold every point. */
  lemma {:induction false} BoundsContain(ps: seq<Point>)
    requires ps != []
    ensures forall i :: 0 <= i < |ps| ==> Inside(BoundsOf(ps).value, ps[i])
  {
    var n := |ps| - 1;
    var front := ps[..n];
    if front != [] {
      BoundsContain(front);
      assert forall i :: 0 <= i < n ==> ps[i] == front[i];
    }
  }

  lemma {:induction false} BoundsOfSnoc(ps: seq<Point>, p: Point)
    ensures BoundsOf(ps + [p]) == Extend(BoundsOf(ps), p)
  {
    assert (ps + [p])[..|ps|] == ps;
  }

  /** The running bounds over a prefix that grows by one point. */
  lemma {:induction false} BoundsStep(front: seq<Point>, s: seq<Point>, i: nat)
    requires i < |s|
    ensures BoundsOf(front + s[..i + 1]) == Extend(BoundsOf(front + s[..i]), s[i])
  {
    assert front + s[..i + 1] == (front + s[..i]) + [s[i]];
    BoundsOfSnoc(front + s[..i], s[i]);
  }

  /** The running bounds before the first and after the last point. */
  lemma {:induction false} BoundsEnds(front: seq<Point>, s: seq<Point>)
    ensures BoundsOf(front + s[..0]) == BoundsOf(front)
    ensures BoundsOf(front + s[..|s|]) == BoundsOf(front + s)
  {
    assert front + s[..0] == front;
    assert s[..|s|] == s;
  }

  /** The box is tight: each of its four sides is touched by a point. */
  lemma {:induction false} BoundsAttained(ps: seq<Point>)
    requires ps != []
    ensures exists i :: 0 <= i < |ps| && ps[i].x == BoundsOf(ps).value.minX
    ensures exists i :: 0 <= i < |ps| && ps[i].x == BoundsOf(ps).value.maxX
    ensures exists i :: 0 <= i < |ps| && ps[i].y == BoundsOf(ps).value.minY
    ensures exists i :: 0 <= i < |ps| && ps[i].y == BoundsOf(ps).value.maxY
  {
    var n := |ps| - 1;
    var front := ps[..n];
    var v := BoundsOf(ps).value;
    if front == [] {
      assert ps[0].x == v.minX && ps[0].x == v.maxX;
      assert ps[0].y == v.minY && ps[0].y == v.maxY;
    } else {
      BoundsAttained(front);
      var w := BoundsOf(front).value;
      assert forall i :: 0 <= i < n ==> ps[i] == front[i];
      if ps[n].x < w.minX {
        assert ps[n].x == v.minX;
      } else {
        var k :| 0 <= k < n && front[k].x == w.minX;
        assert ps[k].x == v.minX;
      }
      if ps[n].x > w.maxX {
        assert ps[n].x == v.maxX;
      } else {
        var k :| 0 <= k < n && front[k].x == w.maxX;
        assert ps[k].x == v.maxX;
      }
      if ps[n].y < w.minY {
        assert ps[n].y == v.minY;
      } else {
        var k :| 0 <= k < n && front[k].y == w.minY;
        assert ps[k].y == v.minY;
      }
      if ps[n].y > w.maxY {
        assert ps[n].y == v.maxY;
      } else {
        var k :| 0 <= k < n && front[k].y == w.maxY;
        assert ps[k].y == v.maxY;
      }
    }
  }

  /** An axis whose extent is below 0.01 grows by 1 on each side; the box
      only grows, and a non-empty extent ends up at least 0.01 wide. */
  function Widen(v: Viewport): (r: Viewport)
    ensures r.minX <= v.minX && v.maxX <= r.maxX && r.minY <= v.minY && v.maxY <= r.maxY
    ensures v.minX <= v.maxX ==> r.maxX - r.minX >= 0.01
    ensures v.minY <= v.maxY ==> r.maxY - r.minY >= 0.01
    ensures v.maxX - v.minX >= 0.01 ==> r.minX == v.minX && r.maxX == v.maxX
    ensures v.maxY - v.minY >= 0.01 ==> r.minY == v.minY && r.maxY == v.maxY
    ensures v.maxX - v.minX < 0.01 ==> r.minX == v.minX - 1.0 && r.maxX == v.maxX + 1.0
    ensures v.maxY - v.minY < 0.01 ==> r.minY == v.minY - 1.0 && r.maxY == v.maxY + 1.0
  {
    var x := if v.maxX - v.minX < 0.01 then (v.minX - 1.0, v.maxX + 1.0) else (v.minX, v.maxX);
    var y := if v.maxY - v.minY < 0.01 then (v.minY - 1.0, v.maxY + 1.0) else (v.minY, v.maxY);
    Viewport(x.0, x.1, y.0, y.1)
  }

  /** Each side moves out by 15% of its extent: the centre stays, the
      extent grows by 30%, and a positive extent strictly encloses the
      old one. */
  function Pad(v: Viewport): (r: Viewport)
    ensures r.minX + r.maxX == v.minX + v.maxX && r.minY + r.maxY == v.minY + v.maxY
    ensures r.maxX - r.minX == 1.3 * (v.maxX - v.minX)
    ensures r.maxY - r.minY == 1.3 * (v.maxY - v.minY)
    ensures v.minX < v.maxX ==> r.minX < v.minX && v.maxX < r.maxX
    ensures v.minY < v.maxY ==> r.minY < v.minY && v.maxY < r.maxY
  {
    var mx := (v.maxX - v.minX) * 0.15;
    var my := (v.maxY - v.minY) * 0.15;
    Viewport(v.minX - mx, v.maxX + mx, v.minY - my, v.maxY + my)
  }

  /** The viewport made from the running bounds: widened, then padded. */
  function Fit(b: Option<Viewport>): (r: Option<Viewport>)
    ensures r.Some? <==> b.Some?
    ensures b.Some? && b.value.minX <= b.value.maxX && b.value.minY <= b.value.maxY ==>
      Proper(r.value) && forall q :: Inside(b.value, q) ==> StrictlyInside(r.value, q)
  {
    match b
    case None => None
    case Some(v) => Some(Pad(Widen(v)))
  }

  /** The fitted viewport of a list of points exists exactly when there is
      a point, has positive extents, and holds every point strictly
      inside. */
  lemma {:induction false} FitEncloses(ps: seq<Point>)
    ensures Fit(BoundsOf(ps)).Some? <==> ps != []
    ensures ps != [] ==> Proper(Fit(BoundsOf(ps)).value)
    ensures ps != [] ==> forall i :: 0 <= i < |ps| ==> StrictlyInside(Fit(BoundsOf(ps)).value, ps[i])
  {
    if ps != [] {
      var b := BoundsOf(ps).value;
      var w := Widen(b);
      var f := Pad(w);
      assert Fit(BoundsOf(ps)).value == f;
      BoundsContain(ps);
      forall i | 0 <= i < |ps|
        ensures StrictlyInside(f, ps[i])
      {
        assert Inside(b, ps[i]);
      }
    }
  }

  // ---------------------------------------------------------------------
  // The accumulators of computeFixedViewport and computeFixedViewport3D
  // ---------------------------------------------------------------------

  /** The running minX / maxX / minY / maxY of a viewport computation;
      `seen` is false while they still hold their infinite start values. */
  class Extent {
    var seen: bool
    var minX: real
    var maxX: real
    var minY: real
    var maxY: real

    /** The bounds the accumulators stand for. */
    function Box(): Option<Viewport>
      reads this
    {
      if seen then Some(Viewport(minX, maxX, minY, maxY)) else None
    }

    constructor ()
      ensures Box() == None
    {
      seen := false;
      minX, maxX, minY, maxY := 0.0, 0.0, 0.0, 0.0;
    }

    /** Take one point into the bounds. */
    method Include(p: Point)
      modifies this
      ensures Box() == Extend(old(Box()), p)
    {
      if !seen || p.x < minX { minX := p.x; }
      if !seen || p.x > maxX { maxX := p.x; }
      if !seen || p.y < minY { minY := p.y; }
      if !seen || p.y > maxY { maxY := p.y; }
      seen := true;
    }

    /** Widen a thin axis by 1 on each side, then pad by 15%. */
    method Fitted() returns (vp: Option<Viewport>)
      ensures vp == Fit(Box())
    {
      if !seen {
        return None;
      }
      var x0, x1, y0, y1 := minX, maxX, minY, maxY;
      if x1 - x0 < 0.01 { x0 := x0 - 1.0; x1 := x1 + 1.0; }
      if y1 - y0 < 0.01 { y0 := y0 - 1.0; y1 := y1 + 1.0; }
      var mx := (x1 - x0) * 0.15;
      var my := (y1 - y0) * 0.15;
      vp := Some(Viewport(x0 - mx, x1 + mx, y0 - my, y1 + my));
    }
  }

  /** The inner loop of computeFixedViewport: take the 201 samples of one
      curve into the bounds. */
  method IncludeSamples(acc: Extent, c: Curve, ghost front: seq<Point>)
    requires acc.Box() == BoundsOf(front)
    modifies acc
    ensures acc.Box() == BoundsOf(front + SamplePoints(c))
  {
    ghost var points := SamplePoints(c);
    BoundsEnds(front, points);
    var i := 0;
    while i <= 200
      invariant 0 <= i <= 201
      invariant acc.Box() == BoundsOf(front + points[..i])
    {
      var t := SampleTime(c.t0, c.t1, i);
      assert points[i] == Point(c.xFn(t), c.yFn(t));
      acc.Include(Point(c.xFn(t), c.yFn(t)));
      BoundsStep(front, points, i);
      i := i + 1;
    }
  }

  /** The fixed viewport of a list of curves: their 201 samples each,
      bounded, widened and padded. */
  method ComputeFixedViewport(curves: seq<Curve>) returns (vp: Option<Viewport>)
    ensures vp == Fit(BoundsOf(AllSamples(curves)))
  {
    var acc := new Extent();
    assert curves[..0] == [];
    var k := 0;
    while k < |curves|
      invariant 0 <= k <= |curves|
      invariant acc.Box() == BoundsOf(AllSamples(curves[..k]))
    {
      IncludeSamples(acc, curves[k], AllSamples(curves[..k]));
      assert curves[..k + 1][..k] == curves[..k];
      k := k + 1;
    }
    assert curves[..k] == curves;
    vp := acc.Fitted();
  }

  /** The inner sampling loop of computeFixedViewport3D: take the 201
      projected samples of one space curve into the bounds. */
  method IncludeProjectedSamples(acc: Extent, c: Curve3D, project: (real, real, real) -> Point, ghost front: seq<Point>)
    requires acc.Box() == BoundsOf(front)
    modifies acc
    ensures acc.Box() == BoundsOf(front + ProjectedSamples(c, project))
  {
    ghost var points := ProjectedSamples(c, project);
    BoundsEnds(front, points);
    var i := 0;
    while i <= 200
      invariant 0 <= i <= 201
      invariant acc.Box() == BoundsOf(front + points[..i])
    {
      var t := SampleTime(c.t0, c.t1, i);
      var p := project(c.xFn(t), c.yFn(t), c.zFn(t));
      assert p == ProjectedSample(c, project, i) == points[i];
      acc.Include(p);
      BoundsStep(front, points, i);
      i := i + 1;
    }
  }

  /** The fixed viewport of a list of space curves under a projection:
      their projected samples and the six projected axis endpoints at
      distance 6, bounded, widened and padded. */
  method ComputeFixedViewport3D(curves: seq<Curve3D>, project: (real, real, real) -> Point) returns (vp: Viewport)
    ensures Some(vp) == Fit(BoundsOf(AllProjectedSamples(curves, project) + AxisEnds(project)))
  {
    var acc := new Extent();
    assert curves[..0] == [];
    var k := 0;
    while k < |curves|
      invariant 0 <= k <= |curves|
      invariant acc.Box() == BoundsOf(AllProjectedSamples(curves[..k], project))
    {
      IncludeProjectedSamples(acc, curves[k], project, AllProjectedSamples(curves[..k], project));
      assert curves[..k + 1][..k] == curves[..k];
      k := k + 1;
    }
    assert curves[..k] == curves;
    IncludeAxisEnds(acc, project, AllProjectedSamples(curves, project));
    var fitted := acc.Fitted();
    FitEncloses(AllProjectedSamples(curves, project) + AxisEnds(project));
    vp := fitted.value;
  }

  /** The axis loop of computeFixedViewport3D: take the six projected axis
      endpoints into the bounds. */
  method IncludeAxisEnds(acc: Extent, project: (real, real, real) -> Point, ghost front: seq<Point>)
    requires acc.Box() == BoundsOf(front)
    modifies acc
    ensures acc.Box() == BoundsOf(front + AxisEnds(project))
  {
    var ends := AxisEnds(project);
    BoundsEnds(front, ends);
    var j := 0;
    while j < 6
      invariant 0 <= j <= 6
      invariant acc.Box() == BoundsOf(front + ends[..j])
    {
      acc.Include(ends[j]);
      BoundsStep(front, ends, j);
      j := j + 1;
    }
  }

  /** Every sample of every curve lies strictly inside the 2D viewport,
      which has positive extents whenever there is a curve. */
  lemma {:induction false} ViewportEnclosesSamples(curves: seq<Curve>, vp: Option<Viewport>)
    requires vp == Fit(BoundsOf(AllSamples(curves)))
    ensures vp.None? <==> curves == []
    ensures vp.Some? ==> Proper(vp.value)
    ensures vp.Some? ==> forall i :: 0 <= i < |AllSamples(curves)| ==> StrictlyInside(vp.value, AllSamples(curves)[i])
  {
    FitEncloses(AllSamples(curves));
  }

  /** Every projected sample and every projected axis endpoint lies
      strictly inside the 3D viewport, which has positive extents. */
  lemma {:induction false} Viewport3DEnclosesSamples(curves: seq<Curve3D>, project: (real, real, real) -> Point, vp: Viewport)
    requires Some(vp) == Fit(BoundsOf(AllProjectedSamples(curves, project) + AxisEnds(project)))
    ensures Proper(vp)
    ensures forall i :: 0 <= i < |AllProjectedSamples(curves, project)| ==>
      StrictlyInside(vp, AllProjectedSamples(curves, project)[i])
    ensures forall i :: 0 <= i < 6 ==> StrictlyInside(vp, AxisEnds(project)[i])
  {
    var samples := AllProjectedSamples(curves, project);
    var ends := AxisEnds(project);
    var all := samples + ends;
    FitEncloses(all);
    forall i | 0 <= i < |samples| ensures StrictlyInside(vp, samples[i]) {
      assert all[i] == samples[i];
    }
    forall i | 0 <= i < 6 ensures StrictlyInside(vp, ends[i]) {
      assert all[|samples| + i] == ends[i];
    }
  }

  /** The sample arrays `drawParametricCurve` fills before stroking. */
  method SampleCurve(c: Curve) returns (xs: seq<real>, ys: seq<real>)
    ensures |xs| == 201 && |ys| == 201
    ensures forall i :: 0 <= i < 201 ==> Point(xs[i], ys[i]) == SamplePoints(c)[i]
  {
    xs, ys := [], [];
    var i := 0;
    while i <= 200
      invariant 0 <= i <= 201
      invariant |xs| == i && |ys| == i
      invariant forall j :: 0 <= j < i ==> Point(xs[j], ys[j]) == SamplePoints(c)[j]
    {
      var t := SampleTime(c.t0, c.t1, i);
      xs := xs + [c.xFn(t)];
      ys := ys + [c.yFn(t)];
      i := i + 1;
    }
  }

  // ---------------------------------------------------------------------
  // Plot to canvas
  // ---------------------------------------------------------------------

  /** ((v - lo) / (hi - lo)) * len: how far along [lo, hi] v is, as a
      length out of len. */
  function ScaleOffset(v: real, lo: real, hi: real, len: real): real
    requires lo != hi
  {
    ((v - lo) / (hi - lo)) * len
  }

  /** The canvas x of a plot x: minX at the rectangle's left edge, maxX at
      its right edge. A zero x-extent divides by zero (NaN or Infinity in
      JavaScript), which is `None`. */
  function ToCanvasX(rect: Rect, vp: Viewport, v: real): (r: Option<real>)
    ensures r.None? <==> vp.maxX == vp.minX
  {
    if vp.maxX == vp.minX then None
    else Some(rect.x + ScaleOffset(v, vp.minX, vp.maxX, rect.w))
  }

  /** The canvas y of a plot y, flipped: minY at the rectangle's bottom
      edge, maxY at its top edge. */
  function ToCanvasY(rect: Rect, vp: Viewport, v: real): (r: Option<real>)
    ensures r.None? <==> vp.maxY == vp.minY
  {
    if vp.maxY == vp.minY then None
    else Some(rect.y + rect.h - ScaleOffset(v, vp.minY, vp.maxY, rect.h))
  }

  /** The ends of the range map to no offset and to the whole length. */
  lemma {:induction false} ScaleOffsetEnds(lo: real, hi: real, len: real)
    requires lo != hi
    ensures ScaleOffset(lo, lo, hi, len) == 0.0
    ensures ScaleOffset(hi, lo, hi, len) == len
  {
    assert (lo - lo) / (hi - lo) == 0.0;
    assert (hi - lo) / (hi - lo) == 1.0;
  }

  /** The viewport's corners land on the rectangle's corners, y flipped. */
  lemma {:induction false} CanvasCorners(rect: Rect, vp: Viewport)
    requires vp.minX != vp.maxX && vp.minY != vp.maxY
    ensures ToCanvasX(rect, vp, vp.minX) == Some(rect.x)
    ensures ToCanvasX(rect, vp, vp.maxX) == Some(rect.x + rect.w)
    ensures ToCanvasY(rect, vp, vp.minY) == Some(rect.y + rect.h)
    ensures ToCanvasY(rect, vp, vp.maxY) == Some(rect.y)
  {
    ScaleOffsetEnds(vp.minX, vp.maxX, rect.w);
    ScaleOffsetEnds(vp.minY, vp.maxY, rect.h);
  }

  /** The offset of a blend of two values is the same blend of their
      offsets. */
  lemma {:induction false} ScaleOffsetBlend(lo: real, hi: real, len: real, u: real, v: real, a: real)
    requires lo != hi
    ensures ScaleOffset(Lerp(u, v, a), lo, hi, len)
         == ScaleOffset(u, lo, hi, len) + (ScaleOffset(v, lo, hi, len) - ScaleOffset(u, lo, hi, len)) * a
  {
    var ext := hi - lo;
    var m := Lerp(u, v, a);
    var k := len / ext;
    assert m - lo == (u - lo) + (v - u) * a;
    assert ((m - lo) / ext) * len == (m - lo) * k;
    assert ((u - lo) / ext) * len == (u - lo) * k;
    assert ((v - lo) / ext) * len == (v - lo) * k;
    assert (m - lo) * k == (u - lo) * k + ((v - u) * a) * k;
    assert (v - lo) * k - (u - lo) * k == (v - u) * k;
    assert ((v - u) * a) * k == ((v - u) * k) * a;
  }

  /** The map is affine: it carries a blend of two plot values to the same
      blend of their canvas values. */
  lemma {:induction false} CanvasAffine(rect: Rect, vp: Viewport, u: real, v: real, a: real)
    requires vp.minX != vp.maxX && vp.minY != vp.maxY
    ensures ToCanvasX(rect, vp, Lerp(u, v, a)) == Some(Lerp(ToCanvasX(rect, vp, u).value, ToCanvasX(rect, vp, v).value, a))
    ensures ToCanvasY(rect, vp, Lerp(u, v, a)) == Some(Lerp(ToCanvasY(rect, vp, u).value, ToCanvasY(rect, vp, v).value, a))
  {
    CanvasAffineX(rect, vp, u, v, a);
    CanvasAffineY(rect, vp, u, v, a);
  }

  lemma {:induction false} CanvasAffineX(rect: Rect, vp: Viewport, u: real, v: real, a: real)
    requires vp.minX != vp.maxX
    ensures ToCanvasX(rect, vp, Lerp(u, v, a)) == Some(Lerp(ToCanvasX(rect, vp, u).value, ToCanvasX(rect, vp, v).value, a))
  {
    var su := ScaleOffset(u, vp.minX, vp.maxX, rect.w);
    var sv := ScaleOffset(v, vp.minX, vp.maxX, rect.w);
    ScaleOffsetBlend(vp.minX, vp.maxX, rect.w, u, v, a);
    ShiftedBlend(rect.x, su, sv, a);
    assert ToCanvasX(rect, vp, u).value == rect.x + su && ToCanvasX(rect, vp, v).value == rect.x + sv;
    assert ToCanvasX(rect, vp, Lerp(u, v, a)).value == rect.x + (su + (sv - su) * a);
  }

  lemma {:induction false} CanvasAffineY(rect: Rect, vp: Viewport, u: real, v: real, a: real)
    requires vp.minY != vp.maxY
    ensures ToCanvasY(rect, vp, Lerp(u, v, a)) == Some(Lerp(ToCanvasY(rect, vp, u).value, ToCanvasY(rect, vp, v).value, a))
  {
    var su := ScaleOffset(u, vp.minY, vp.maxY, rect.h);
    var sv := ScaleOffset(v, vp.minY, vp.maxY, rect.h);
    var b := rect.y + rect.h;
    ScaleOffsetBlend(vp.minY, vp.maxY, rect.h, u, v, a);
    FlippedBlend(b, su, sv, a);
    assert ToCanvasY(rect, vp, u).value == b - su && ToCanvasY(rect, vp, v).value == b - sv;
    assert ToCanvasY(rect, vp, Lerp(u, v, a)).value == b - (su + (sv - su) * a);
  }

  /** Shifting both ends of a blend shifts the blend. */
  lemma {:induction false} ShiftedBlend(x: real, su: real, sv: real, a: real)
    ensures x + (su + (sv - su) * a) == Lerp(x + su, x + sv, a)
  {
    assert (x + sv) - (x + su) == sv - su;
  }

  /** Measuring both ends of a blend down from b measures the blend down
      from b. */
  lemma {:induction false} FlippedBlend(b: real, su: real, sv: real, a: real)
    ensures b - (su + (sv - su) * a) == Lerp(b - su, b - sv, a)
  {
    var d := (b - sv) - (b - su);
    assert d == -(sv - su);
    assert d * a == -((sv - su) * a);
  }

  /** The offset grows with the value when the range and the length are
      positive. */
  lemma {:induction false} ScaleOffsetIncreasing(lo: real, hi: real, len: real, u: real, v: real)
    requires lo < hi && len > 0.0 && u < v
    ensures ScaleOffset(u, lo, hi, len) < ScaleOffset(v, lo, hi, len)
  {
    var ext := hi - lo;
    var a := (v - lo) / ext;
    var b := (u - lo) / ext;
    assert a - b == (v - u) / ext;
    assert a * len - b * len == (a - b) * len;
    assert (v - u) / ext > 0.0;
    PositiveProduct((v - u) / ext, len);
  }

  /** With positive extents and a rectangle of positive size, larger plot
      x goes right and larger plot y goes up (smaller canvas y). */
  lemma {:induction false} CanvasMonotone(rect: Rect, vp: Viewport, u: real, v: real)
    requires Proper(vp) && u < v
    ensures rect.w > 0.0 ==> ToCanvasX(rect, vp, u).value < ToCanvasX(rect, vp, v).value
    ensures rect.h > 0.0 ==> ToCanvasY(rect, vp, u).value > ToCanvasY(rect, vp, v).value
  {
    if rect.w > 0.0 {
      ScaleOffsetIncreasing(vp.minX, vp.maxX, rect.w, u, v);
    }
    if rect.h > 0.0 {
      ScaleOffsetIncreasing(vp.minY, vp.maxY, rect.h, u, v);
    }
  }

  /** A value inside the range has an offset between nothing and the whole
      length. */
  lemma {:induction false} ScaleOffsetWithin(v: real, lo: real, hi: real, len: real)
    requires lo <= v <= hi && lo < hi && len >= 0.0
    ensures 0.0 <= ScaleOffset(v, lo, hi, len) <= len
  {
    var f := (v - lo) / (hi - lo);
    QuotientInUnit(v - lo, hi - lo);
    MulMono(0.0, f, 0.0, len);
    MulMono(f, 1.0, len, len);
  }


  // ---------------------------------------------------------------------
  // Axes of a 2D plot
  // ---------------------------------------------------------------------

  /** What `drawPlotAxes` puts on the canvas: axis lines and the top-left
      corners at which the labels are drawn. A coordinate computed through
      a zero extent is NaN in JavaScript, `None` here. */
  datatype AxisPaint =
    | XAxisLine(lineY: Option<real>, fromX: real, toX: real)
    | YAxisLine(lineX: Option<real>, fromY: real, toY: real)
    | XAxisLabel(labelX: real, labelY: Option<real>)
    | YAxisLabel(yLabelX: Option<real>, yLabelY: real)

  const LABEL_SCALE: real := 2.5
  const LABEL_OFFSET: real := 20.0

  /** The x-axis (y = 0) is in view. */
  predicate XAxisVisible(vp: Viewport)
  {
    vp.minY <= 0.0 && vp.maxY >= 0.0
  }

  /** The y-axis (x = 0) is in view. */
  predicate YAxisVisible(vp: Viewport)
  {
    vp.minX <= 0.0 && vp.maxX >= 0.0
  }

  /** `c - d`, where NaN stays NaN. */
  function Less(c: Option<real>, d: real): Option<real>
  {
    match c
    case None => None
    case Some(v) => Some(v - d)
  }

  /** The paint order of `drawPlotAxes`: both lines, then both labels. */
  function PaintRank(p: AxisPaint): nat
  {
    match p
    case XAxisLine(_, _, _) => 0
    case YAxisLine(_, _, _) => 1
    case XAxisLabel(_, _) => 2
    case YAxisLabel(_, _) => 3
  }

  /** The axis lines and labels of a 2D plot: the x-axis line, the y-axis
      line, the x label beyond the right tip and the y label above the top
      tip; each pair only when its axis is in view, lines before labels. */
  function PlotAxes(rect: Rect, vp: Viewport, xSize: LabelSize, ySize: LabelSize): (r: seq<AxisPaint>)
    ensures XAxisVisible(vp) <==> XAxisLine(ToCanvasY(rect, vp, 0.0), rect.x, rect.x + rect.w) in r
    ensures YAxisVisible(vp) <==> YAxisLine(ToCanvasX(rect, vp, 0.0), rect.y, rect.y + rect.h) in r
    ensures XAxisVisible(vp) <==>
      XAxisLabel(rect.x + rect.w + LABEL_OFFSET - xSize.width * LABEL_SCALE / 2.0,
                 Less(ToCanvasY(rect, vp, 0.0), xSize.height * LABEL_SCALE / 2.0)) in r
    ensures YAxisVisible(vp) <==>
      YAxisLabel(Less(ToCanvasX(rect, vp, 0.0), ySize.width * LABEL_SCALE / 2.0),
                 rect.y - LABEL_OFFSET - ySize.height * LABEL_SCALE / 2.0) in r
    ensures forall p :: p in r && p.XAxisLine? ==> XAxisVisible(vp)
    ensures forall p :: p in r && p.YAxisLine? ==> YAxisVisible(vp)
    ensures |r| == (if XAxisVisible(vp) then 2 else 0) + (if YAxisVisible(vp) then 2 else 0)
    ensures forall i, j :: 0 <= i < j < |r| ==> PaintRank(r[i]) < PaintRank(r[j])
  {
    var y0 := ToCanvasY(rect, vp, 0.0);
    var x0 := ToCanvasX(rect, vp, 0.0);
    var xLine := if XAxisVisible(vp) then [XAxisLine(y0, rect.x, rect.x + rect.w)] else [];
    var yLine := if YAxisVisible(vp) then [YAxisLine(x0, rect.y, rect.y + rect.h)] else [];
    var xLabel := if XAxisVisible(vp) then
      [XAxisLabel(rect.x + rect.w + LABEL_OFFSET - xSize.width * LABEL_SCALE / 2.0, Less(y0, xSize.height * LABEL_SCALE / 2.0))]
    else [];
    var yLabel := if YAxisVisible(vp) then
      [YAxisLabel(Less(x0, ySize.width * LABEL_SCALE / 2.0), rect.y - LABEL_OFFSET - ySize.height * LABEL_SCALE / 2.0)]
    else [];
    xLine + yLine + xLabel + yLabel
  }

  /** A visible axis line lies within the plot rectangle: the x-axis
      between its top and bottom edges, the y-axis between its left and
      right edges. */
  lemma {:induction false} AxesWithinRect(rect: Rect, vp: Viewport)
    requires Proper(vp) && rect.w >= 0.0 && rect.h >= 0.0
    ensures XAxisVisible(vp) ==> rect.y <= ToCanvasY(rect, vp, 0.0).value <= rect.y + rect.h
    ensures YAxisVisible(vp) ==> rect.x <= ToCanvasX(rect, vp, 0.0).value <= rect.x + rect.w
  {
    if XAxisVisible(vp) {
      ScaleOffsetWithin(0.0, vp.minY, vp.maxY, rect.h);
    }
    if YAxisVisible(vp) {
      ScaleOffsetWithin(0.0, vp.minX, vp.maxX, rect.w);
    }
  }
}
