/**
 * The per-pixel colour computations of src/renderer/Render.java: plain
 * tracing, supersampling over a list of rays, and adaptive supersampling of a
 * pixel by recursive subdivision with a memo of the colours already traced.
 *
 * The renderer sees the scene's camera only through the queries gathered in
 * View. Of these, getVRight, getVUp and constructRayThroughPixel belong to
 * src/elements/Camera.java; getDistance, getWidth, getHeight,
 * constructRayThroughPoint and getSupersamplingRays are called by the renderer
 * but are not part of this model, so their results are parameters. A View is
 * not built from a Cameras.Camera; CameraFrame states what such a camera
 * guarantees of the directions.
 */
module Sampling {
  import opened Wrappers
  import opened Points
  import opened Vectors
  import opened Rays
  import Colors
  import Cameras

  /** rayTracer.traceRay: the colour seen along a ray, or the failure it raises. */
  type Tracing = Ray -> Result<Colors.Color>

  /** The camera as the renderer queries it. */
  datatype View = View(
    vRight: Vector,
    vUp: Vector,
    distance: real,
    width: real,
    height: real,
    rayThroughPixel: (int, int, int, int) -> Result<Ray>,
    rayThroughPoint: Point3D -> Result<Ray>,
    supersamplingRays: (Ray, int, int, int) -> Result<seq<Ray>>)

  /** The colour traced through a point of the view plane. */
  function TraceAt(v: View, trace: Tracing, p: Point3D): Result<Colors.Color>
  {
    var ray :- v.rayThroughPoint(p);
    trace(ray)
  }

  // ----- Geometry of a cell -----

  /** Four points of a cell, or four colours sampled at them. */
  datatype Quad<T> = Quad(topLeft: T, topRight: T, bottomLeft: T, bottomRight: T)

  /** The point a steps to the right of pc and b steps up, in the frame
    * (right, up). */
  function Offset(pc: Point3D, right: Point3D, up: Point3D, a: real, b: real): Point3D
  {
    Shift(Shift(pc, Times(right, a)), Times(up, b))
  }

  /** In an orthonormal frame the two steps of an offset are its coordinates. */
  lemma OffsetCoordinates(pc: Point3D, right: Point3D, up: Point3D, a: real, b: real)
    requires Dot(right, right) == 1.0 && Dot(up, up) == 1.0 && Dot(right, up) == 0.0
    ensures Dot(Diff(Offset(pc, right, up, a, b), pc), right) == a
    ensures Dot(Diff(Offset(pc, right, up, a, b), pc), up) == b
  {
    var d := Diff(Offset(pc, right, up, a, b), pc);
    assert d == Shift(Times(right, a), Times(up, b));
    DotSymmetric(d, right);
    DotDistributes(right, Times(right, a), Times(up, b));
    DotSymmetric(Times(right, a), right);
    DotScaled(right, a, right);
    DotSymmetric(Times(up, b), right);
    DotScaled(up, b, right);
    DotSymmetric(up, right);
    DotSymmetric(d, up);
    DotDistributes(up, Times(right, a), Times(up, b));
    DotSymmetric(Times(right, a), up);
    DotScaled(right, a, up);
    DotSymmetric(Times(up, b), up);
    DotScaled(up, b, up);
  }

  /** Moving an offset point further along the frame adds to its steps. */
  lemma OffsetMoves(pc: Point3D, right: Point3D, up: Point3D, a: real, b: real, da: real, db: real)
    ensures Shift(Offset(pc, right, up, a, b), Times(right, da)) == Offset(pc, right, up, a + da, b)
    ensures Shift(Offset(pc, right, up, a, b), Times(up, db)) == Offset(pc, right, up, a, b + db)
  {
  }

  /** The corners of the cell of size w by h centred on pc, as
    * adaptiveSupersamplingRecursive computes them: the steps down from the
    * top corners are taken by the cell's width. Any zero step is refused by
    * scale. */
  function CornersAsWritten(v: View, pc: Point3D, w: real, h: real): (r: Result<Quad<Point3D>>)
    ensures r.Fail? <==> w == 0.0 || h == 0.0
    ensures r.Ok? ==> r.value.topLeft == Offset(pc, v.vRight, v.vUp, -(w / 2.0), h / 2.0)
    ensures r.Ok? ==> r.value.bottomLeft == Offset(pc, v.vRight, v.vUp, -(w / 2.0), h / 2.0 - w)
  {
    var left :- Scale(v.vRight, -(w / 2.0));
    var up :- Scale(v.vUp, h / 2.0);
    var topLeft := Add(Add(pc, left), up);
    var across :- Scale(v.vRight, w);
    var topRight := Add(topLeft, across);
    var down :- Scale(v.vUp, -w);
    OffsetMoves(pc, v.vRight, v.vUp, -(w / 2.0), h / 2.0, w, -w);
    Ok(Quad(topLeft, topRight, Add(topLeft, down), Add(topRight, down)))
  }

  /** The corners of the cell of size w by h centred on pc: half a width to
    * either side and half a height up and down. */
  function Corners(v: View, pc: Point3D, w: real, h: real): (r: Result<Quad<Point3D>>)
    ensures r.Fail? <==> w == 0.0 || h == 0.0
  {
    var left :- Scale(v.vRight, -(w / 2.0));
    var up :- Scale(v.vUp, h / 2.0);
    var topLeft := Add(Add(pc, left), up);
    var across :- Scale(v.vRight, w);
    var topRight := Add(topLeft, across);
    var down :- Scale(v.vUp, -h);
    Ok(Quad(topLeft, topRight, Add(topLeft, down), Add(topRight, down)))
  }

  /** A view that takes its right and up directions from a camera whose
    * directions are mutually orthogonal (as every camera the constructor
    * accepts is) has the orthonormal frame that CornersPlaced,
    * QuartersPlaced and CornersOnCell assume. */
  lemma CameraFrame(c: Cameras.Camera, v: View)
    requires c.Orthonormal() && v.vRight == c.vRight && v.vUp == c.vUp
    ensures Dot(v.vRight, v.vRight) == 1.0 && Dot(v.vUp, v.vUp) == 1.0 && Dot(v.vRight, v.vUp) == 0.0
  {
  }

  /** The corners lie half a width to either side of pc and half a height
    * above and below it. */
  lemma CornersPlaced(v: View, pc: Point3D, w: real, h: real)
    requires w != 0.0 && h != 0.0
    ensures Corners(v, pc, w, h) == Ok(Quad(
      Offset(pc, v.vRight, v.vUp, -(w / 2.0), h / 2.0),
      Offset(pc, v.vRight, v.vUp, w / 2.0, h / 2.0),
      Offset(pc, v.vRight, v.vUp, -(w / 2.0), -(h / 2.0)),
      Offset(pc, v.vRight, v.vUp, w / 2.0, -(h / 2.0))))
  {
    OffsetMoves(pc, v.vRight, v.vUp, -(w / 2.0), h / 2.0, w, -h);
    OffsetMoves(pc, v.vRight, v.vUp, w / 2.0, h / 2.0, w, -h);
  }

  /** The centres of the four quarters of the cell, as the source computes
    * them: both vertical steps are taken by the cell's half width. */
  function QuartersAsWritten(v: View, pc: Point3D, w: real, h: real): (r: Result<Quad<Point3D>>)
    ensures r.Fail? <==> w == 0.0
    ensures r.Ok? ==> r.value.topLeft == Offset(pc, v.vRight, v.vUp, -(w / 4.0), w / 4.0)
  {
    var left :- Scale(v.vRight, -(w / 2.0 / 2.0));
    var up :- Scale(v.vUp, w / 2.0 / 2.0);
    var topLeft := Add(Add(pc, left), up);
    var across :- Scale(v.vRight, w / 2.0);
    var topRight := Add(topLeft, across);
    var down :- Scale(v.vUp, -(w / 2.0));
    Ok(Quad(topLeft, topRight, Add(topLeft, down), Add(topRight, down)))
  }

  /** The centres of the four quarters of the cell: a quarter width to either
    * side and a quarter height up and down. */
  function Quarters(v: View, pc: Point3D, w: real, h: real): (r: Result<Quad<Point3D>>)
    ensures r.Fail? <==> w == 0.0 || h == 0.0
  {
    var left :- Scale(v.vRight, -(w / 2.0 / 2.0));
    var up :- Scale(v.vUp, h / 2.0 / 2.0);
    var topLeft := Add(Add(pc, left), up);
    var across :- Scale(v.vRight, w / 2.0);
    var topRight := Add(topLeft, across);
    var down :- Scale(v.vUp, -(h / 2.0));
    Ok(Quad(topLeft, topRight, Add(topLeft, down), Add(topRight, down)))
  }

  /** The quarter centres lie a quarter width to either side of pc and a
    * quarter height above and below it: they are the centres of the cells of
    * half the size that tile this one. */
  lemma QuartersPlaced(v: View, pc: Point3D, w: real, h: real)
    requires w != 0.0 && h != 0.0
    ensures Quarters(v, pc, w, h) == Ok(Quad(
      Offset(pc, v.vRight, v.vUp, -(w / 4.0), h / 4.0),
      Offset(pc, v.vRight, v.vUp, w / 4.0, h / 4.0),
      Offset(pc, v.vRight, v.vUp, -(w / 4.0), -(h / 4.0)),
      Offset(pc, v.vRight, v.vUp, w / 4.0, -(h / 4.0))))
  {
    OffsetMoves(pc, v.vRight, v.vUp, -(w / 4.0), h / 4.0, w / 2.0, -(h / 2.0));
    OffsetMoves(pc, v.vRight, v.vUp, w / 4.0, h / 4.0, w / 2.0, -(h / 2.0));
  }

  /** With an orthonormal frame, the corrected corners lie on the cell's
    * border, w / 2 across and h / 2 up or down from its centre. */
  lemma CornersOnCell(v: View, pc: Point3D, w: real, h: real)
    requires Dot(v.vRight, v.vRight) == 1.0 && Dot(v.vUp, v.vUp) == 1.0 && Dot(v.vRight, v.vUp) == 0.0
    requires w != 0.0 && h != 0.0
    ensures Dot(Diff(Corners(v, pc, w, h).value.bottomLeft, pc), v.vRight) == -(w / 2.0)
    ensures Dot(Diff(Corners(v, pc, w, h).value.bottomLeft, pc), v.vUp) == -(h / 2.0)
    ensures Dot(Diff(Corners(v, pc, w, h).value.topRight, pc), v.vRight) == w / 2.0
    ensures Dot(Diff(Corners(v, pc, w, h).value.topRight, pc), v.vUp) == h / 2.0
  {
    CornersPlaced(v, pc, w, h);
    OffsetCoordinates(pc, v.vRight, v.vUp, -(w / 2.0), -(h / 2.0));
    OffsetCoordinates(pc, v.vRight, v.vUp, w / 2.0, h / 2.0);
  }

  /** For the view of an accepted camera the frame hypothesis is met, so the
    * corrected corners lie on the cell's border. */
  lemma CameraCornersOnCell(c: Cameras.Camera, v: View, pc: Point3D, w: real, h: real)
    requires c.Orthonormal() && v.vRight == c.vRight && v.vUp == c.vUp
    requires w != 0.0 && h != 0.0
    ensures Dot(Diff(Corners(v, pc, w, h).value.bottomLeft, pc), v.vRight) == -(w / 2.0)
    ensures Dot(Diff(Corners(v, pc, w, h).value.bottomLeft, pc), v.vUp) == -(h / 2.0)
    ensures Dot(Diff(Corners(v, pc, w, h).value.topRight, pc), v.vRight) == w / 2.0
    ensures Dot(Diff(Corners(v, pc, w, h).value.topRight, pc), v.vUp) == h / 2.0
  {
    CameraFrame(c, v);
    CornersOnCell(v, pc, w, h);
  }

  /** As written, the bottom corners of a cell that is wider than it is high
    * (or higher than wide) lie off the cell: with w == 2 and h == 1 the
    * bottom-left corner is 1.5 below the centre instead of 0.5. */
  lemma CornersAsWrittenOffCell(v: View, pc: Point3D)
    requires Dot(v.vRight, v.vRight) == 1.0 && Dot(v.vUp, v.vUp) == 1.0 && Dot(v.vRight, v.vUp) == 0.0
    ensures CornersAsWritten(v, pc, 2.0, 1.0).Ok?
    ensures Dot(Diff(CornersAsWritten(v, pc, 2.0, 1.0).value.bottomLeft, pc), v.vUp) == -1.5
    ensures CornersAsWritten(v, pc, 2.0, 1.0) != Corners(v, pc, 2.0, 1.0)
  {
    CornersPlaced(v, pc, 2.0, 1.0);
    OffsetCoordinates(pc, v.vRight, v.vUp, -1.0, -1.5);
    OffsetCoordinates(pc, v.vRight, v.vUp, -1.0, -0.5);
  }

  /** As written, the quarter centres of a cell that is not square are not
    * the centres of its quarters: with w == 2 and h == 1 the top-left one is
    * 0.5 above the centre instead of 0.25. */
  lemma QuartersAsWrittenOffCell(v: View, pc: Point3D)
    requires Dot(v.vRight, v.vRight) == 1.0 && Dot(v.vUp, v.vUp) == 1.0 && Dot(v.vRight, v.vUp) == 0.0
    ensures QuartersAsWritten(v, pc, 2.0, 1.0).Ok?
    ensures Dot(Diff(QuartersAsWritten(v, pc, 2.0, 1.0).value.topLeft, pc), v.vUp) == 0.5
    ensures QuartersAsWritten(v, pc, 2.0, 1.0) != Quarters(v, pc, 2.0, 1.0)
  {
    QuartersPlaced(v, pc, 2.0, 1.0);
    OffsetCoordinates(pc, v.vRight, v.vUp, -0.5, 0.5);
    OffsetCoordinates(pc, v.vRight, v.vUp, -0.5, 0.25);
  }

  /** For square cells the source's corners and quarter centres are the
    * corrected ones. */
  lemma SquareCellsAgree(v: View, pc: Point3D, w: real)
    ensures CornersAsWritten(v, pc, w, w) == Corners(v, pc, w, w)
    ensures QuartersAsWritten(v, pc, w, w) == Quarters(v, pc, w, w)
  {
  }

  // ----- Averaging -----

  /** c1.add(c2, c3, c4).reduce(4): the mean of four colours. */
  function Average(c1: Colors.Color, c2: Colors.Color, c3: Colors.Color, c4: Colors.Color): (r: Colors.Color)
    ensures Colors.Scale(r, 4.0) == Colors.Add(Colors.Add(Colors.Add(c1, c2), c3), c4)
  {
    Colors.Reduce(Colors.Add(Colors.Add(Colors.Add(c1, c2), c3), c4), 4.0).value
  }

  /** Every channel of c lies between those of lo and hi. */
  predicate Between(lo: Colors.Color, c: Colors.Color, hi: Colors.Color)
  {
    lo.r <= c.r <= hi.r && lo.g <= c.g <= hi.g && lo.b <= c.b <= hi.b
  }

  /** The mean of four colours within bounds is within the same bounds, and
    * the mean of four copies of a colour is that colour. */
  lemma AverageBetween(lo: Colors.Color, hi: Colors.Color, c1: Colors.Color, c2: Colors.Color, c3: Colors.Color, c4: Colors.Color)
    requires Between(lo, c1, hi) && Between(lo, c2, hi) && Between(lo, c3, hi) && Between(lo, c4, hi)
    ensures Between(lo, Average(c1, c2, c3, c4), hi)
    ensures c1 == c2 == c3 == c4 ==> Average(c1, c2, c3, c4) == c1
  {
  }

  // ----- Adaptive supersampling -----

  /** How a cell of size w by h centred on a point is sampled and split: its
    * four corners, and the centres of its four quarters. */
  datatype Cells = Cells(corners: (Point3D, real, real) -> Result<Quad<Point3D>>,
                         quarters: (Point3D, real, real) -> Result<Quad<Point3D>>)

  /** The cells of adaptiveSupersamplingRecursive as written. */
  function SourceCells(v: View): (g: Cells)
    ensures forall pc, w, h :: g.corners(pc, w, h) == CornersAsWritten(v, pc, w, h)
    ensures forall pc, w, h :: g.quarters(pc, w, h) == QuartersAsWritten(v, pc, w, h)
  {
    Cells((pc, w, h) => CornersAsWritten(v, pc, w, h), (pc, w, h) => QuartersAsWritten(v, pc, w, h))
  }

  /** The corrected cells: corners on the cell's border and the centres of
    * its quarters. */
  function PixelCells(v: View): (g: Cells)
    ensures forall pc, w, h :: g.corners(pc, w, h) == Corners(v, pc, w, h)
    ensures forall pc, w, h :: g.quarters(pc, w, h) == Quarters(v, pc, w, h)
  {
    Cells((pc, w, h) => Corners(v, pc, w, h), (pc, w, h) => Quarters(v, pc, w, h))
  }

  /** The colours traced at the four points of a cell, failing on the first
    * point (in the order top left, top right, bottom left, bottom right)
    * whose trace fails. */
  function CornerColors(v: View, trace: Tracing, q: Quad<Point3D>): (r: Result<Quad<Colors.Color>>)
    ensures r.Ok? <==> TraceAt(v, trace, q.topLeft).Ok? && TraceAt(v, trace, q.topRight).Ok?
                       && TraceAt(v, trace, q.bottomLeft).Ok? && TraceAt(v, trace, q.bottomRight).Ok?
    ensures r.Ok? ==> r.value.topLeft == TraceAt(v, trace, q.topLeft).value
                      && r.value.bottomRight == TraceAt(v, trace, q.bottomRight).value
  {
    var tl :- TraceAt(v, trace, q.topLeft);
    var tr :- TraceAt(v, trace, q.topRight);
    var bl :- TraceAt(v, trace, q.bottomLeft);
    var br :- TraceAt(v, trace, q.bottomRight);
    Ok(Quad(tl, tr, bl, br))
  }

  /** Each corner's colour is the colour traced at it; the corners are traced
    * in the order top left, top right, bottom left, bottom right, and the
    * first trace that fails is the cell's failure. */
  lemma CornerColorsTraced(v: View, trace: Tracing, q: Quad<Point3D>)
    ensures CornerColors(v, trace, q).Ok? ==>
      CornerColors(v, trace, q).value == Quad(TraceAt(v, trace, q.topLeft).value, TraceAt(v, trace, q.topRight).value,
                                              TraceAt(v, trace, q.bottomLeft).value, TraceAt(v, trace, q.bottomRight).value)
    ensures TraceAt(v, trace, q.topLeft).Fail? ==> CornerColors(v, trace, q) == Fail(TraceAt(v, trace, q.topLeft).error)
    ensures TraceAt(v, trace, q.topLeft).Ok? && TraceAt(v, trace, q.topRight).Fail? ==>
      CornerColors(v, trace, q) == Fail(TraceAt(v, trace, q.topRight).error)
    ensures TraceAt(v, trace, q.topLeft).Ok? && TraceAt(v, trace, q.topRight).Ok? && TraceAt(v, trace, q.bottomLeft).Fail? ==>
      CornerColors(v, trace, q) == Fail(TraceAt(v, trace, q.bottomLeft).error)
    ensures (TraceAt(v, trace, q.topLeft).Ok? && TraceAt(v, trace, q.topRight).Ok? && TraceAt(v, trace, q.bottomLeft).Ok?
             && TraceAt(v, trace, q.bottomRight).Fail?) ==>
      CornerColors(v, trace, q) == Fail(TraceAt(v, trace, q.bottomRight).error)
  {
  }

  /** Cells that refuse a cell of zero width or height, as the source's and
    * the corrected corners both do. */
  ghost predicate RefusesEmpty(g: Cells)
  {
    forall pc, w, h :: w == 0.0 || h == 0.0 ==> g.corners(pc, w, h).Fail?
  }

  /** adaptiveSupersamplingRecursive without the memo: the colour of the cell
    * of size w by h centred on pc. At level 1 or below it is the mean of the
    * corners; when the four corners agree it is their colour; otherwise it
    * is the mean of the four quarters, each sampled one level lower. */
  function AdaptiveColor(v: View, g: Cells, trace: Tracing, pc: Point3D, w: real, h: real, level: int): (r: Result<Colors.Color>)
    decreases level, 1
  {
    var q :- g.corners(pc, w, h);
    var c :- CornerColors(v, trace, q);
    if level <= 1 then
      Ok(Average(c.topLeft, c.topRight, c.bottomLeft, c.bottomRight))
    else if c.topLeft == c.topRight && c.topLeft == c.bottomLeft && c.topLeft == c.bottomRight then
      Ok(c.topLeft)
    else
      var centres :- g.quarters(pc, w, h);
      QuartersColor(v, g, trace, centres, w, h, level)
  }

  /** The mean of the colours of the four cells of half the size centred on
    * the given quarter centres, each sampled one level lower, in the source's
    * order: top left, bottom left, top right, bottom right. */
  function QuartersColor(v: View, g: Cells, trace: Tracing, centres: Quad<Point3D>, w: real, h: real, level: int): (r: Result<Colors.Color>)
    requires level > 1
    decreases level, 0
  {
    var c1 :- AdaptiveColor(v, g, trace, centres.topLeft, w / 2.0, h / 2.0, level - 1);
    var c2 :- AdaptiveColor(v, g, trace, centres.bottomLeft, w / 2.0, h / 2.0, level - 1);
    var c3 :- AdaptiveColor(v, g, trace, centres.topRight, w / 2.0, h / 2.0, level - 1);
    var c4 :- AdaptiveColor(v, g, trace, centres.bottomRight, w / 2.0, h / 2.0, level - 1);
    Ok(Average(c1, c2, c3, c4))
  }

  /** The cases of the recursion: a cell whose corners cannot be computed or
    * traced fails as they do; at level 1 or below it has the mean of its
    * corners; when its corners agree it has their colour; otherwise it has
    * the mean colour of its quarters, one level lower. */
  lemma AdaptiveCases(v: View, g: Cells, trace: Tracing, pc: Point3D, w: real, h: real, level: int)
    ensures g.corners(pc, w, h).Fail? ==> AdaptiveColor(v, g, trace, pc, w, h, level) == Fail(g.corners(pc, w, h).error)
    ensures g.corners(pc, w, h).Ok? && CornerColors(v, trace, g.corners(pc, w, h).value).Fail? ==>
      AdaptiveColor(v, g, trace, pc, w, h, level) == Fail(CornerColors(v, trace, g.corners(pc, w, h).value).error)
    ensures g.corners(pc, w, h).Ok? && CornerColors(v, trace, g.corners(pc, w, h).value).Ok? ==>
      var k := CornerColors(v, trace, g.corners(pc, w, h).value).value;
      var same := k.topLeft == k.topRight && k.topLeft == k.bottomLeft && k.topLeft == k.bottomRight;
      (level <= 1 ==> AdaptiveColor(v, g, trace, pc, w, h, level) == Ok(Average(k.topLeft, k.topRight, k.bottomLeft, k.bottomRight)))
      && (level > 1 && same ==> AdaptiveColor(v, g, trace, pc, w, h, level) == Ok(k.topLeft))
      && (level > 1 && !same && g.quarters(pc, w, h).Fail? ==>
            AdaptiveColor(v, g, trace, pc, w, h, level) == Fail(g.quarters(pc, w, h).error))
      && (level > 1 && !same && g.quarters(pc, w, h).Ok? ==>
            AdaptiveColor(v, g, trace, pc, w, h, level) == QuartersColor(v, g, trace, g.quarters(pc, w, h).value, w, h, level))
  {
  }

  /** Every colour traced through the view plane lies within the bounds. */
  ghost predicate TracedBetween(v: View, trace: Tracing, lo: Colors.Color, hi: Colors.Color)
  {
    forall p :: TracedAtBetween(v, trace, p, lo, hi)
  }

  /** The colour traced at p, if any, lies within the bounds. */
  predicate TracedAtBetween(v: View, trace: Tracing, p: Point3D, lo: Colors.Color, hi: Colors.Color)
  {
    TraceAt(v, trace, p).Ok? ==> Between(lo, TraceAt(v, trace, p).value, hi)
  }

  /** Adaptive supersampling only averages traced colours: when every traced
    * colour lies within some bounds, so does the colour of the cell. */
  lemma {:induction false} AdaptiveBetween(v: View, g: Cells, trace: Tracing, pc: Point3D, w: real, h: real, level: int, lo: Colors.Color, hi: Colors.Color)
    requires TracedBetween(v, trace, lo, hi)
    ensures AdaptiveColor(v, g, trace, pc, w, h, level).Ok? ==> Between(lo, AdaptiveColor(v, g, trace, pc, w, h, level).value, hi)
    decreases level, 1
  {
    var q := g.corners(pc, w, h);
    if q.Ok? {
      var c := CornerColors(v, trace, q.value);
      if c.Ok? {
        var k := c.value;
        assert TracedAtBetween(v, trace, q.value.topLeft, lo, hi) && TracedAtBetween(v, trace, q.value.topRight, lo, hi);
        assert TracedAtBetween(v, trace, q.value.bottomLeft, lo, hi) && TracedAtBetween(v, trace, q.value.bottomRight, lo, hi);
        AverageBetween(lo, hi, k.topLeft, k.topRight, k.bottomLeft, k.bottomRight);
        var centres := g.quarters(pc, w, h);
        if level > 1 && centres.Ok? {
          QuartersBetween(v, g, trace, centres.value, w, h, level, lo, hi);
        }
      }
    }
  }

  /** The same bound for the mean of the four quarters of a cell. */
  lemma {:induction false} QuartersBetween(v: View, g: Cells, trace: Tracing, centres: Quad<Point3D>, w: real, h: real, level: int, lo: Colors.Color, hi: Colors.Color)
    requires level > 1 && TracedBetween(v, trace, lo, hi)
    ensures QuartersColor(v, g, trace, centres, w, h, level).Ok? ==> Between(lo, QuartersColor(v, g, trace, centres, w, h, level).value, hi)
    decreases level, 0
  {
    AdaptiveBetween(v, g, trace, centres.topLeft, w / 2.0, h / 2.0, level - 1, lo, hi);
    AdaptiveBetween(v, g, trace, centres.bottomLeft, w / 2.0, h / 2.0, level - 1, lo, hi);
    AdaptiveBetween(v, g, trace, centres.topRight, w / 2.0, h / 2.0, level - 1, lo, hi);
    AdaptiveBetween(v, g, trace, centres.bottomRight, w / 2.0, h / 2.0, level - 1, lo, hi);
    var a1 := AdaptiveColor(v, g, trace, centres.topLeft, w / 2.0, h / 2.0, level - 1);
    var a2 := AdaptiveColor(v, g, trace, centres.bottomLeft, w / 2.0, h / 2.0, level - 1);
    var a3 := AdaptiveColor(v, g, trace, centres.topRight, w / 2.0, h / 2.0, level - 1);
    var a4 := AdaptiveColor(v, g, trace, centres.bottomRight, w / 2.0, h / 2.0, level - 1);
    ResultsBetween(lo, hi, a1, a2, a3, a4, QuartersColor(v, g, trace, centres, w, h, level));
  }

  /** When a result is the mean of four results within bounds, it is within
    * the same bounds. */
  lemma ResultsBetween(lo: Colors.Color, hi: Colors.Color, a1: Result<Colors.Color>, a2: Result<Colors.Color>,
                       a3: Result<Colors.Color>, a4: Result<Colors.Color>, r: Result<Colors.Color>)
    requires a1.Ok? ==> Between(lo, a1.value, hi)
    requires a2.Ok? ==> Between(lo, a2.value, hi)
    requires a3.Ok? ==> Between(lo, a3.value, hi)
    requires a4.Ok? ==> Between(lo, a4.value, hi)
    requires r.Ok? ==> a1.Ok? && a2.Ok? && a3.Ok? && a4.Ok? && r.value == Average(a1.value, a2.value, a3.value, a4.value)
    ensures r.Ok? ==> Between(lo, r.value, hi)
  {
    if r.Ok? {
      AverageBetween(lo, hi, a1.value, a2.value, a3.value, a4.value);
    }
  }

  /** A scene of one colour: if every point of the view plane traces to c,
    * every cell the corners of which can be computed has colour c, at every
    * level, with no subdivision. */
  lemma AdaptiveUniform(v: View, g: Cells, trace: Tracing, pc: Point3D, w: real, h: real, level: int, c: Colors.Color)
    requires forall p :: TraceAt(v, trace, p) == Ok(c)
    requires g.corners(pc, w, h).Ok?
    ensures AdaptiveColor(v, g, trace, pc, w, h, level) == Ok(c)
  {
    AverageBetween(c, c, c, c, c, c);
  }

  // ----- The memo -----

  /** Every colour in the memo is the colour traced at its point. */
  predicate Memoized(v: View, trace: Tracing, memo: map<Point3D, Colors.Color>)
  {
    forall p :: p in memo ==> TraceAt(v, trace, p) == Ok(memo[p])
  }

  /** What one stretch of sampling did to the memo: it traced the points in
    * traced, each once and none that the memo already held; it kept every
    * entry; it added only traced points; and, unless it ended in a failure,
    * it added every point it traced. */
  ghost predicate Sampled(memo: map<Point3D, Colors.Color>, memo': map<Point3D, Colors.Color>, traced: seq<Point3D>, ok: bool)
  {
    (forall i, j :: 0 <= i < j < |traced| ==> traced[i] != traced[j])
    && (forall p :: p in traced ==> p !in memo)
    && (ok ==> forall p :: p in traced ==> p in memo')
    && (forall p :: p in memo ==> p in memo' && memo'[p] == memo[p])
    && (forall p :: p in memo' ==> p in memo || p in traced)
  }

  /** Two stretches of sampling, the first of which succeeded, make one. */
  lemma SampledChain(m1: map<Point3D, Colors.Color>, m2: map<Point3D, Colors.Color>, m3: map<Point3D, Colors.Color>,
                     t1: seq<Point3D>, t2: seq<Point3D>, ok: bool)
    requires Sampled(m1, m2, t1, true) && Sampled(m2, m3, t2, ok)
    ensures Sampled(m1, m3, t1 + t2, ok)
  {
    var t := t1 + t2;
    forall i, j | 0 <= i < j < |t|
      ensures t[i] != t[j]
    {
      if j >= |t1| && i < |t1| {
        assert t[i] in t1 && t[j] in t2;
      }
    }
  }

  /** One corner's colour: looked up in the memo when it is there, otherwise
    * traced and, when the trace succeeds, recorded. */
  method Sample(v: View, trace: Tracing, p: Point3D, memo: map<Point3D, Colors.Color>)
    returns (r: Result<Colors.Color>, memo': map<Point3D, Colors.Color>, ghost traced: seq<Point3D>)
    requires Memoized(v, trace, memo)
    ensures r == TraceAt(v, trace, p)
    ensures Memoized(v, trace, memo') && Sampled(memo, memo', traced, r.Ok?)
  {
    if p in memo {
      r, memo', traced := Ok(memo[p]), memo, [];
    } else {
      r := TraceAt(v, trace, p);
      memo' := if r.Ok? then memo[p := r.value] else memo;
      traced := [p];
    }
  }

  /** The four corners' colours, in the source's order, through the memo. */
  method SampleCorners(v: View, trace: Tracing, q: Quad<Point3D>, memo: map<Point3D, Colors.Color>)
    returns (r: Result<Quad<Colors.Color>>, memo': map<Point3D, Colors.Color>, ghost traced: seq<Point3D>)
    requires Memoized(v, trace, memo)
    ensures r == CornerColors(v, trace, q)
    ensures Memoized(v, trace, memo') && Sampled(memo, memo', traced, r.Ok?)
  {
    var tl, m1, t1 := Sample(v, trace, q.topLeft, memo);
    if tl.Fail? {
      return Fail(tl.error), m1, t1;
    }
    var tr, m2, t2 := Sample(v, trace, q.topRight, m1);
    SampledChain(memo, m1, m2, t1, t2, tr.Ok?);
    if tr.Fail? {
      return Fail(tr.error), m2, t1 + t2;
    }
    var bl, m3, t3 := Sample(v, trace, q.bottomLeft, m2);
    SampledChain(memo, m2, m3, t1 + t2, t3, bl.Ok?);
    if bl.Fail? {
      return Fail(bl.error), m3, t1 + t2 + t3;
    }
    var br, m4, t4 := Sample(v, trace, q.bottomRight, m3);
    SampledChain(memo, m3, m4, t1 + t2 + t3, t4, br.Ok?);
    if br.Fail? {
      return Fail(br.error), m4, t1 + t2 + t3 + t4;
    }
    r, memo', traced := Ok(Quad(tl.value, tr.value, bl.value, br.value)), m4, t1 + t2 + t3 + t4;
  }

  /** adaptiveSupersamplingRecursive: computes AdaptiveColor, reading and
    * filling the memo shared by all cells of one pixel. The memo only grows,
    * no entry is overwritten, and no point is traced twice. */
  method AdaptiveRecursive(v: View, g: Cells, trace: Tracing, pc: Point3D, w: real, h: real, level: int,
                           memo: map<Point3D, Colors.Color>)
    returns (r: Result<Colors.Color>, memo': map<Point3D, Colors.Color>, ghost traced: seq<Point3D>)
    requires Memoized(v, trace, memo)
    ensures r == AdaptiveColor(v, g, trace, pc, w, h, level)
    ensures Memoized(v, trace, memo') && Sampled(memo, memo', traced, r.Ok?)
    decreases level, 1
  {
    AdaptiveCases(v, g, trace, pc, w, h, level);
    var q := g.corners(pc, w, h);
    if q.Fail? {
      return Fail(q.error), memo, [];
    }
    var c, m0, t0 := SampleCorners(v, trace, q.value, memo);
    if c.Fail? {
      return Fail(c.error), m0, t0;
    }
    var k := c.value;
    if level <= 1 {
      return Ok(Average(k.topLeft, k.topRight, k.bottomLeft, k.bottomRight)), m0, t0;
    }
    if k.topLeft == k.topRight && k.topLeft == k.bottomLeft && k.topLeft == k.bottomRight {
      return Ok(k.topLeft), m0, t0;
    }
    var centres := g.quarters(pc, w, h);
    if centres.Fail? {
      return Fail(centres.error), m0, t0;
    }
    ghost var t1;
    r, memo', t1 := SampleQuarters(v, g, trace, centres.value, w, h, level, m0);
    SampledChain(memo, m0, memo', t0, t1, r.Ok?);
    traced := t0 + t1;
  }

  /** The four recursive calls on the quarters of a cell of size w by h, in
    * the source's order, each one level lower. */
  method SampleQuarters(v: View, g: Cells, trace: Tracing, centres: Quad<Point3D>, w: real, h: real, level: int,
                        memo: map<Point3D, Colors.Color>)
    returns (r: Result<Colors.Color>, memo': map<Point3D, Colors.Color>, ghost traced: seq<Point3D>)
    requires level > 1 && Memoized(v, trace, memo)
    ensures r == QuartersColor(v, g, trace, centres, w, h, level)
    ensures Memoized(v, trace, memo') && Sampled(memo, memo', traced, r.Ok?)
    decreases level, 0
  {
    var tl, m1, t1 := SampleQuarter(v, g, trace, centres.topLeft, w / 2.0, h / 2.0, level - 1, memo, memo, []);
    if tl.Fail? {
      return Fail(tl.error), m1, t1;
    }
    var bl, m2, t2 := SampleQuarter(v, g, trace, centres.bottomLeft, w / 2.0, h / 2.0, level - 1, m1, memo, t1);
    if bl.Fail? {
      return Fail(bl.error), m2, t2;
    }
    var tr, m3, t3 := SampleQuarter(v, g, trace, centres.topRight, w / 2.0, h / 2.0, level - 1, m2, memo, t2);
    if tr.Fail? {
      return Fail(tr.error), m3, t3;
    }
    var br, m4, t4 := SampleQuarter(v, g, trace, centres.bottomRight, w / 2.0, h / 2.0, level - 1, m3, memo, t3);
    if br.Fail? {
      return Fail(br.error), m4, t4;
    }
    r := Ok(Average(tl.value, bl.value, tr.value, br.value));
    memo', traced := m4, t4;
  }

  /** One recursive call on a quarter, continuing a stretch of sampling that
    * began at memo0 and has so far traced the points in traced0. */
  method SampleQuarter(v: View, g: Cells, trace: Tracing, pc: Point3D, w: real, h: real, level: int,
                       memo: map<Point3D, Colors.Color>, ghost memo0: map<Point3D, Colors.Color>, ghost traced0: seq<Point3D>)
    returns (r: Result<Colors.Color>, memo': map<Point3D, Colors.Color>, ghost traced: seq<Point3D>)
    requires Memoized(v, trace, memo) && Sampled(memo0, memo, traced0, true)
    ensures r == AdaptiveColor(v, g, trace, pc, w, h, level)
    ensures Memoized(v, trace, memo') && Sampled(memo0, memo', traced, r.Ok?)
    decreases level, 2
  {
    ghost var t;
    r, memo', t := AdaptiveRecursive(v, g, trace, pc, w, h, level, memo);
    SampledChain(memo0, memo, memo', traced0, t, r.Ok?);
    traced := traced0 + t;
  }

  /** getAdaptiveSupersamplingColor without the memo, sampling with the cells
    * g: the pixel centre is the point at the camera's distance along the
    * pixel's ray, and the cell is one pixel of the view plane. The source
    * samples SourceCells; with PixelCells this is the corrected colour. */
  function AdaptivePixelColor(v: View, g: Cells, trace: Tracing, nX: int, nY: int, maxLevel: int, ray: Ray): (r: Result<Colors.Color>)
    requires 0 < nX && 0 < nY
    ensures v.distance == 0.0 ==> r.Fail?
    ensures RefusesEmpty(g) && (v.width == 0.0 || v.height == 0.0) ==> r.Fail?
  {
    var pc :- GetPoint(ray, v.distance);
    AdaptiveColor(v, g, trace, pc, v.width / nX as real, v.height / nY as real, maxLevel)
  }

  /** getAdaptiveSupersamplingColor: starts AdaptiveRecursive on the pixel
    * with an empty memo and the source's cells. */
  method GetAdaptiveSupersamplingColor(v: View, trace: Tracing, nX: int, nY: int, maxLevel: int, ray: Ray)
    returns (r: Result<Colors.Color>)
    requires 0 < nX && 0 < nY
    ensures r == AdaptivePixelColor(v, SourceCells(v), trace, nX, nY, maxLevel, ray)
  {
    var pc := GetPoint(ray, v.distance);
    if pc.Fail? {
      return Fail(pc.error);
    }
    var memo: map<Point3D, Colors.Color> := map[];
    ghost var traced: seq<Point3D>;
    r, memo, traced := AdaptiveRecursive(v, SourceCells(v), trace, pc.value, v.width / nX as real, v.height / nY as real, maxLevel, memo);
  }

  /** Two ways of splitting cells that agree on every square cell. */
  ghost predicate SameOnSquares(g1: Cells, g2: Cells)
  {
    forall pc, w :: g1.corners(pc, w, w) == g2.corners(pc, w, w) && g1.quarters(pc, w, w) == g2.quarters(pc, w, w)
  }

  /** The source's cells agree with the corrected ones on square cells. */
  lemma SourceCellsSquare(v: View)
    ensures SameOnSquares(SourceCells(v), PixelCells(v))
  {
    forall pc, w {
      SquareCellsAgree(v, pc, w);
    }
  }

  /** Cells that agree on squares give a square cell the same colour, at
    * every level: halving a square cell leaves it square. */
  lemma {:induction false} SquareCellColor(v: View, g1: Cells, g2: Cells, trace: Tracing, pc: Point3D, w: real, level: int)
    requires SameOnSquares(g1, g2)
    ensures AdaptiveColor(v, g1, trace, pc, w, w, level) == AdaptiveColor(v, g2, trace, pc, w, w, level)
    decreases level, 1
  {
    var q := g1.corners(pc, w, w);
    assert q == g2.corners(pc, w, w);
    if q.Ok? && CornerColors(v, trace, q.value).Ok? && level > 1 && g1.quarters(pc, w, w).Ok? {
      SquareQuartersColor(v, g1, g2, trace, g1.quarters(pc, w, w).value, w, level);
    }
  }

  /** The quarters of a square cell have the same colour under cells that
    * agree on squares. */
  lemma {:induction false} SquareQuartersColor(v: View, g1: Cells, g2: Cells, trace: Tracing, centres: Quad<Point3D>, w: real, level: int)
    requires level > 1
    requires SameOnSquares(g1, g2)
    ensures QuartersColor(v, g1, trace, centres, w, w, level) == QuartersColor(v, g2, trace, centres, w, w, level)
    decreases level, 0
  {
    var half := w / 2.0;
    SquareCellColor(v, g1, g2, trace, centres.topLeft, half, level - 1);
    SquareCellColor(v, g1, g2, trace, centres.bottomLeft, half, level - 1);
    SquareCellColor(v, g1, g2, trace, centres.topRight, half, level - 1);
    SquareCellColor(v, g1, g2, trace, centres.bottomRight, half, level - 1);
    QuartersSame(v, g1, g2, trace, centres, w, level);
  }

  /** Two ways of splitting cells give the same quarters colour when they
    * give the same colour on each of the four quarters. */
  lemma QuartersSame(v: View, g1: Cells, g2: Cells, trace: Tracing, centres: Quad<Point3D>, w: real, level: int)
    requires level > 1
    requires AdaptiveColor(v, g1, trace, centres.topLeft, w / 2.0, w / 2.0, level - 1) == AdaptiveColor(v, g2, trace, centres.topLeft, w / 2.0, w / 2.0, level - 1)
    requires AdaptiveColor(v, g1, trace, centres.bottomLeft, w / 2.0, w / 2.0, level - 1) == AdaptiveColor(v, g2, trace, centres.bottomLeft, w / 2.0, w / 2.0, level - 1)
    requires AdaptiveColor(v, g1, trace, centres.topRight, w / 2.0, w / 2.0, level - 1) == AdaptiveColor(v, g2, trace, centres.topRight, w / 2.0, w / 2.0, level - 1)
    requires AdaptiveColor(v, g1, trace, centres.bottomRight, w / 2.0, w / 2.0, level - 1) == AdaptiveColor(v, g2, trace, centres.bottomRight, w / 2.0, w / 2.0, level - 1)
    ensures QuartersColor(v, g1, trace, centres, w, w, level) == QuartersColor(v, g2, trace, centres, w, w, level)
  {
  }

  /** When a pixel of the view plane is square, the source's adaptive
    * supersampling gives the corrected colour: the misplaced corners and
    * quarter centres only matter for pixels that are not square. */
  lemma SquarePixelColor(v: View, trace: Tracing, nX: int, nY: int, maxLevel: int, ray: Ray)
    requires 0 < nX && 0 < nY
    requires v.width / nX as real == v.height / nY as real
    ensures AdaptivePixelColor(v, SourceCells(v), trace, nX, nY, maxLevel, ray) == AdaptivePixelColor(v, PixelCells(v), trace, nX, nY, maxLevel, ray)
  {
    var pc := GetPoint(ray, v.distance);
    if pc.Ok? {
      SourceCellsSquare(v);
      SquareCellColor(v, SourceCells(v), PixelCells(v), trace, pc.value, v.width / nX as real, maxLevel);
    }
  }

  // ----- Supersampling over a list of rays -----

  /** The sum of the colours traced along the rays, added from the first ray
    * to the last; the first failing trace is the result. */
  function TraceSum(trace: Tracing, rays: seq<Ray>): (r: Result<Colors.Color>)
    ensures r.Ok? <==> forall i :: 0 <= i < |rays| ==> trace(rays[i]).Ok?
  {
    if |rays| == 0 then Ok(Colors.BLACK)
    else
      var sum :- TraceSum(trace, rays[..|rays| - 1]);
      var c :- trace(rays[|rays| - 1]);
      Ok(Colors.Add(sum, c))
  }

  /** When every ray traces, the sum is the sum of the traced colours. */
  lemma {:induction false} TraceSumAllOk(trace: Tracing, rays: seq<Ray>)
    requires forall i :: 0 <= i < |rays| ==> trace(rays[i]).Ok?
    ensures TraceSum(trace, rays) == Ok(Colors.Sum(seq(|rays|, i requires 0 <= i < |rays| => trace(rays[i]).value)))
  {
    if |rays| > 0 {
      var front := rays[..|rays| - 1];
      TraceSumAllOk(trace, front);
      var all := seq(|rays|, i requires 0 <= i < |rays| => trace(rays[i]).value);
      assert all[..|rays| - 1] == seq(|front|, i requires 0 <= i < |front| => trace(front[i]).value);
    }
  }

  /** getSupersamplingColor without the loop: the mean of the colours traced
    * along the camera's supersampling rays. With no rays the division by
    * zero fails. */
  function SupersampledColor(v: View, trace: Tracing, nX: int, nY: int, gridSize: int, ray: Ray): (r: Result<Colors.Color>)
    ensures v.supersamplingRays(ray, gridSize, nX, nY) == Ok([]) ==> r == Fail(Arithmetic)
    ensures r.Ok? ==> v.supersamplingRays(ray, gridSize, nX, nY).Ok?
                      && TraceSum(trace, v.supersamplingRays(ray, gridSize, nX, nY).value)
                         == Ok(Colors.Scale(r.value, |v.supersamplingRays(ray, gridSize, nX, nY).value| as real))
  {
    var rays :- v.supersamplingRays(ray, gridSize, nX, nY);
    var sum :- TraceSum(trace, rays);
    Colors.Reduce(sum, |rays| as real)
  }

  /** When every supersampling ray sees the same colour c, the pixel has
    * colour c. */
  lemma SupersampledUniform(v: View, trace: Tracing, nX: int, nY: int, gridSize: int, ray: Ray, c: Colors.Color)
    requires v.supersamplingRays(ray, gridSize, nX, nY).Ok?
    requires |v.supersamplingRays(ray, gridSize, nX, nY).value| > 0
    requires forall r :: r in v.supersamplingRays(ray, gridSize, nX, nY).value ==> trace(r) == Ok(c)
    ensures SupersampledColor(v, trace, nX, nY, gridSize, ray) == Ok(c)
  {
    var rays := v.supersamplingRays(ray, gridSize, nX, nY).value;
    assert forall i :: 0 <= i < |rays| ==> trace(rays[i]) == Ok(c) by {
      forall i | 0 <= i < |rays| ensures trace(rays[i]) == Ok(c) {
        assert rays[i] in rays;
      }
    }
    TraceSumAllOk(trace, rays);
    var cs := seq(|rays|, i requires 0 <= i < |rays| => trace(rays[i]).value);
    Colors.SumConstant(cs, c);
    Colors.ReduceScale(c, |rays| as real);
  }

  /** getSupersamplingColor: adds the traced colours one ray at a time and
    * divides by the number of rays. */
  method GetSupersamplingColor(v: View, trace: Tracing, nX: int, nY: int, gridSize: int, middleRay: Ray)
    returns (r: Result<Colors.Color>)
    ensures r == SupersampledColor(v, trace, nX, nY, gridSize, middleRay)
  {
    var rays := v.supersamplingRays(middleRay, gridSize, nX, nY);
    if rays.Fail? {
      return Fail(rays.error);
    }
    var all := rays.value;
    var color := Colors.BLACK;
    var i := 0;
    while i < |all|
      invariant 0 <= i <= |all|
      invariant TraceSum(trace, all[..i]) == Ok(color)
    {
      var c := trace(all[i]);
      assert all[..i + 1][..i] == all[..i];
      if c.Fail? {
        FailureKept(trace, all, i + 1);
        return Fail(c.error);
      }
      color := Colors.Add(color, c.value);
      i := i + 1;
    }
    assert all[..|all|] == all;
    r := Colors.Reduce(color, |all| as real);
  }

  /** A failing prefix sum fails the whole sum with the same failure. */
  lemma {:induction false} FailureKept(trace: Tracing, rays: seq<Ray>, i: int)
    requires 0 <= i <= |rays| && TraceSum(trace, rays[..i]).Fail?
    ensures TraceSum(trace, rays) == TraceSum(trace, rays[..i])
    decreases |rays|
  {
    if i < |rays| {
      assert rays[..|rays| - 1][..i] == rays[..i];
      FailureKept(trace, rays[..|rays| - 1], i);
    } else {
      assert rays[..i] == rays;
    }
  }
}
