/** Grid calculation utilities: rectangle geometry and the transform between
    screen pixels and grid coordinates. Numbers are exact reals; the distance
    between rectangles is kept squared (the square root is left out). */
module GridCalculations {

  import opened Sequences

  datatype Position = Position(x: real, y: real)

  datatype Bounds = Bounds(x: real, y: real, width: real, height: real)

  /** The camera over the grid: a screen-space offset, a zoom factor, the
      physical size in pixels and the permitted zoom range. */
  datatype GridViewport = GridViewport(
    x: real, y: real, zoom: real, width: real, height: real, minZoom: real, maxZoom: real)

  /** Inclusive containment on all four edges: only a rectangle of
      non-negative size contains any point. */
  predicate IsPointInBounds(p: Position, b: Bounds)
    ensures IsPointInBounds(p, b) ==> b.width >= 0.0 && b.height >= 0.0
  {
    p.x >= b.x && p.x <= b.x + b.width && p.y >= b.y && p.y <= b.y + b.height
  }

  /** The two rectangles overlap or share an edge or a corner. */
  predicate Touches(a: Bounds, b: Bounds) {
    a.x <= b.x + b.width && b.x <= a.x + a.width && a.y <= b.y + b.height && b.y <= a.y + a.height
  }

  /** Gap between the two rectangles along x; zero when their x-extents meet. */
  function GapX(a: Bounds, b: Bounds): (g: real)
    ensures g >= 0.0
  {
    Max(0.0, Max(a.x - (b.x + b.width), b.x - (a.x + a.width)))
  }

  function GapY(a: Bounds, b: Bounds): (g: real)
    ensures g >= 0.0
  {
    Max(0.0, Max(a.y - (b.y + b.height), b.y - (a.y + a.height)))
  }

  /** The square of `getBoundsDistance`. */
  function BoundsDistanceSquared(a: Bounds, b: Bounds): (d: real)
    ensures d >= 0.0
  {
    GapX(a, b) * GapX(a, b) + GapY(a, b) * GapY(a, b)
  }

  lemma BoundsDistanceSymmetric(a: Bounds, b: Bounds)
    ensures BoundsDistanceSquared(a, b) == BoundsDistanceSquared(b, a)
  {
    assert GapX(a, b) == GapX(b, a);
    assert GapY(a, b) == GapY(b, a);
  }

  /** The distance is zero when the rectangles overlap or touch; when they
      do not, at least one of the two gaps is positive. */
  lemma DistanceZeroWhenTouching(a: Bounds, b: Bounds)
    ensures Touches(a, b) ==> BoundsDistanceSquared(a, b) == 0.0
    ensures !Touches(a, b) <==> GapX(a, b) > 0.0 || GapY(a, b) > 0.0
  {
  }

  /** When the y-extents meet, the distance is the x gap alone. */
  lemma DistanceAlongX(a: Bounds, b: Bounds)
    requires a.y <= b.y + b.height && b.y <= a.y + a.height
    requires a.width >= 0.0 && b.width >= 0.0 && a.x + a.width < b.x
    ensures BoundsDistanceSquared(a, b) == (b.x - (a.x + a.width)) * (b.x - (a.x + a.width))
  {
  }

  /** The point midway between opposite edges. */
  function BoundsCenter(b: Bounds): (c: Position)
    ensures c.x - b.x == (b.x + b.width) - c.x && c.y - b.y == (b.y + b.height) - c.y
  {
    Position(b.x + b.width / 2.0, b.y + b.height / 2.0)
  }

  /** The centre lies in the rectangle exactly when its size is non-negative. */
  lemma CenterInBoundsIffNonNegative(b: Bounds)
    ensures IsPointInBounds(BoundsCenter(b), b) <==> b.width >= 0.0 && b.height >= 0.0
  {
  }

  /** Multiplies position and size alike, so the far corner scales too. */
  function ScaleBounds(b: Bounds, factor: real): (r: Bounds)
    ensures r.x + r.width == (b.x + b.width) * factor && r.y + r.height == (b.y + b.height) * factor
  {
    Bounds(b.x * factor, b.y * factor, b.width * factor, b.height * factor)
  }

  lemma ScaleByOne(b: Bounds)
    ensures ScaleBounds(b, 1.0) == b
  {
  }

  lemma ScaleCompose(b: Bounds, f: real, g: real)
    ensures ScaleBounds(ScaleBounds(b, f), g) == ScaleBounds(b, f * g)
  {
    assert b.x * f * g == b.x * (f * g);
    assert b.y * f * g == b.y * (f * g);
    assert b.width * f * g == b.width * (f * g);
    assert b.height * f * g == b.height * (f * g);
  }

  /** A positive scale about the origin carries containment with it. */
  lemma ScalePreservesContainment(p: Position, b: Bounds, f: real)
    requires f > 0.0
    ensures IsPointInBounds(p, b) <==> IsPointInBounds(Position(p.x * f, p.y * f), ScaleBounds(b, f))
  {
    var r := ScaleBounds(b, f);
    EdgeImage(p.x, b.x, 0.0, f, r.x);
    EdgeImage(p.x, b.x + b.width, 0.0, f, r.x + r.width);
    EdgeImage(p.y, b.y, 0.0, f, r.y);
    EdgeImage(p.y, b.y + b.height, 0.0, f, r.y + r.height);
  }

  lemma MultiplyPreservesOrder(u: real, v: real, f: real)
    requires f > 0.0
    ensures u >= v <==> u * f >= v * f
  {
    assert u * f - v * f == (u - v) * f;
    if u < v {
      assert (v - u) * f > 0.0;
    }
  }

  /** Moves the rectangle by `offset`, keeping its size. */
  function TranslateBounds(b: Bounds, offset: Position): (r: Bounds)
    ensures r.width == b.width && r.height == b.height
    ensures r.x + r.width == b.x + b.width + offset.x && r.y + r.height == b.y + b.height + offset.y
  {
    Bounds(b.x + offset.x, b.y + offset.y, b.width, b.height)
  }

  lemma TranslateRoundTrip(b: Bounds, o: Position)
    ensures TranslateBounds(TranslateBounds(b, o), Position(-o.x, -o.y)) == b
  {
  }

  lemma TranslatePreservesContainment(p: Position, b: Bounds, o: Position)
    ensures IsPointInBounds(p, b) <==> IsPointInBounds(Position(p.x + o.x, p.y + o.y), TranslateBounds(b, o))
  {
  }

  lemma DivideThenMultiply(u: real, z: real)
    requires z != 0.0
    ensures u / z * z == u
  {
  }

  /** The grid point under a screen point; mapping it back to the screen
      gives the screen point again. */
  function ScreenToGrid(p: Position, v: GridViewport): (g: Position)
    requires v.zoom != 0.0
    ensures GridToScreen(g, v) == p
  {
    DivideThenMultiply(p.x - v.x, v.zoom);
    DivideThenMultiply(p.y - v.y, v.zoom);
    Position((p.x - v.x) / v.zoom, (p.y - v.y) / v.zoom)
  }

  /** The screen point of a grid point; for a non-zero zoom, undoing the
      offset and the zoom gives the grid point again. */
  function GridToScreen(g: Position, v: GridViewport): (p: Position)
    ensures v.zoom != 0.0 ==> (p.x - v.x) / v.zoom == g.x && (p.y - v.y) / v.zoom == g.y
  {
    Position(g.x * v.zoom + v.x, g.y * v.zoom + v.y)
  }

  /** The grid-space rectangle the viewport shows. */
  function ViewportBounds(v: GridViewport): (r: Bounds)
    requires v.zoom != 0.0
    ensures Position(r.x, r.y) == ScreenToGrid(Position(0.0, 0.0), v)
    ensures Position(r.x + r.width, r.y + r.height) == ScreenToGrid(Position(v.width, v.height), v)
  {
    Bounds(-v.x / v.zoom, -v.y / v.zoom, v.width / v.zoom, v.height / v.zoom)
  }

  /** With a positive zoom, a grid point lies in the viewport's grid
      rectangle exactly when its screen image lies on the screen. */
  lemma ViewportBoundsIsScreenImage(g: Position, v: GridViewport)
    requires v.zoom > 0.0
    ensures IsPointInBounds(g, ViewportBounds(v)) <==>
            IsPointInBounds(GridToScreen(g, v), Bounds(0.0, 0.0, v.width, v.height))
  {
    var r := ViewportBounds(v);
    var s := GridToScreen(g, v);
    EdgeImage(g.x, r.x, v.x, v.zoom, 0.0);
    EdgeImage(g.x, r.x + r.width, v.x, v.zoom, v.width);
    EdgeImage(g.y, r.y, v.y, v.zoom, 0.0);
    EdgeImage(g.y, r.y + r.height, v.y, v.zoom, v.height);
  }

  /** One coordinate of the viewport test: an edge at `e` on the grid lands
      at `screen` under a positive zoom, and a grid coordinate lies on the
      same side of the edge as its screen image lies of `screen`. */
  lemma EdgeImage(c: real, e: real, offset: real, zoom: real, screen: real)
    requires zoom > 0.0
    requires e * zoom + offset == screen
    ensures c >= e <==> c * zoom + offset >= screen
    ensures c <= e <==> c * zoom + offset <= screen
  {
    MultiplyPreservesOrder(c, e, zoom);
    MultiplyPreservesOrder(e, c, zoom);
  }
}
