/** The two screen mappings of the canvas: where a pointer press spawns a wave
    source on the water surface, and the normalized device coordinates used to
    measure a drag. Both are exact rational arithmetic over the window size. */
module Geometry {

  /** A pair of coordinates: a screen position in pixels, or a point of the
      surface plane. */
  datatype Point = Point(x: real, y: real)

  /** A window size, logical or physical; the canvas only ever divides by it
      while it is positive. */
  datatype Size = Size(w: real, h: real) {
    predicate Positive() { w > 0.0 && h > 0.0 }
  }

  /** Component-wise difference, the shift a drag feeds to the camera. */
  function Minus(a: Point, b: Point): Point {
    Point(a.x - b.x, a.y - b.y)
  }

  /** The spawn mapping of add_wave_center: the drawable is scaled to the
      square [-0.75, 0.75] x [-0.75, 0.75] of the surface plane, with the
      screen's downward y axis turned upward. */
  function SpawnPosition(center: Point, physical: Size): (p: Point)
    requires physical.Positive()
    ensures (p.x < 0.0 <==> center.x < physical.w / 2.0) && (p.y < 0.0 <==> center.y > physical.h / 2.0)
  {
    Point(1.5 * (center.x - physical.w / 2.0) / physical.w,
          1.5 * (-(center.y - physical.h / 2.0) / physical.h))
  }

  /** The inverse of SpawnPosition: the screen position that spawns at p. */
  function SpawnToScreen(p: Point, physical: Size): (center: Point)
    requires physical.Positive()
  {
    Point(physical.w / 2.0 + p.x * physical.w / 1.5,
          physical.h / 2.0 - p.y * physical.h / 1.5)
  }

  /** screen_to_gl_coordinates: [0, W] x [0, H] onto [-1, 1] x [-1, 1],
      without flipping either axis. */
  function ScreenToGl(pos: Point, size: Size): (g: Point)
    requires size.Positive()
    ensures (g.x < 0.0 <==> pos.x < size.w / 2.0) && (g.y < 0.0 <==> pos.y < size.h / 2.0)
  {
    Point(2.0 * pos.x / size.w - 1.0, 2.0 * pos.y / size.h - 1.0)
  }

  /** The inverse of ScreenToGl. */
  function GlToScreen(g: Point, size: Size): (pos: Point)
    requires size.Positive()
  {
    Point((g.x + 1.0) * size.w / 2.0, (g.y + 1.0) * size.h / 2.0)
  }

  lemma SpawnRoundTrip(center: Point, p: Point, physical: Size)
    requires physical.Positive()
    ensures SpawnToScreen(SpawnPosition(center, physical), physical) == center
    ensures SpawnPosition(SpawnToScreen(p, physical), physical) == p
  {
    var w, h := physical.w, physical.h;
    var q := SpawnPosition(center, physical);
    assert q.x * w / 1.5 == center.x - w / 2.0;
    assert q.y * h / 1.5 == -(center.y - h / 2.0);
    var c := SpawnToScreen(p, physical);
    assert c.x - w / 2.0 == p.x * w / 1.5;
    assert c.y - h / 2.0 == -(p.y * h / 1.5);
  }

  /** The drawable's centre spawns at the origin of the surface. */
  lemma SpawnCentre(physical: Size)
    requires physical.Positive()
    ensures SpawnPosition(Point(physical.w / 2.0, physical.h / 2.0), physical) == Point(0.0, 0.0)
  {
  }

  /** The drawable's edges spawn at +-0.75; the top edge (screen y = 0) is
      the positive side, so the y axis is flipped. */
  lemma SpawnEdges(physical: Size, c: Point)
    requires physical.Positive()
    ensures c.x == 0.0 ==> SpawnPosition(c, physical).x == -0.75
    ensures c.x == physical.w ==> SpawnPosition(c, physical).x == 0.75
    ensures c.y == 0.0 ==> SpawnPosition(c, physical).y == 0.75
    ensures c.y == physical.h ==> SpawnPosition(c, physical).y == -0.75
  {
    var w, h := physical.w, physical.h;
    if c.x == 0.0 {
      assert 1.5 * (0.0 - w / 2.0) == -0.75 * w;
      assert (-0.75 * w) / w == -0.75;
    }
    if c.x == w {
      assert w - w / 2.0 == 0.5 * w;
      assert 1.5 * (0.5 * w) == 0.75 * w;
      assert (0.75 * w) / w == 0.75;
    }
    if c.y == 0.0 {
      assert 0.0 - h / 2.0 == -0.5 * h;
      assert (-0.5 * h) / h == -0.5;
    }
    if c.y == h {
      assert h - h / 2.0 == 0.5 * h;
      assert (0.5 * h) / h == 0.5;
    }
  }

  /** Moving the pointer right moves the spawn point right; moving it down
      the screen moves the spawn point down the surface (y decreases). */
  lemma SpawnOrientation(a: Point, b: Point, physical: Size)
    requires physical.Positive()
    ensures a.x < b.x ==> SpawnPosition(a, physical).x < SpawnPosition(b, physical).x
    ensures a.y < b.y ==> SpawnPosition(a, physical).y > SpawnPosition(b, physical).y
  {
    var w, h := physical.w, physical.h;
    var pa, pb := SpawnPosition(a, physical), SpawnPosition(b, physical);
    assert pb.x - pa.x == 1.5 * (b.x - a.x) / w;
    assert pa.y - pb.y == 1.5 * (b.y - a.y) / h;
  }

  lemma GlRoundTrip(pos: Point, g: Point, size: Size)
    requires size.Positive()
    ensures GlToScreen(ScreenToGl(pos, size), size) == pos
    ensures ScreenToGl(GlToScreen(g, size), size) == g
  {
    var w, h := size.w, size.h;
    var q := ScreenToGl(pos, size);
    assert (q.x + 1.0) * w == 2.0 * pos.x;
    assert (q.y + 1.0) * h == 2.0 * pos.y;
  }

  /** The window's centre is the origin; its corners are (-1, -1) and (1, 1). */
  lemma GlCentreAndCorners(size: Size)
    requires size.Positive()
    ensures ScreenToGl(Point(size.w / 2.0, size.h / 2.0), size) == Point(0.0, 0.0)
    ensures ScreenToGl(Point(0.0, 0.0), size) == Point(-1.0, -1.0)
    ensures ScreenToGl(Point(size.w, size.h), size) == Point(1.0, 1.0)
  {
    assert 2.0 * size.w / size.w == 2.0;
    assert 2.0 * size.h / size.h == 2.0;
  }

  /** When the logical and physical sizes agree, the spawn point is the drag
      coordinate scaled by 0.75 with y flipped. */
  lemma SpawnIsScaledGl(pos: Point, size: Size)
    requires size.Positive()
    ensures SpawnPosition(pos, size) == Point(0.75 * ScreenToGl(pos, size).x, -0.75 * ScreenToGl(pos, size).y)
  {
    var w, h := size.w, size.h;
    assert (pos.x - w / 2.0) / w == pos.x / w - (w / 2.0) / w;
    assert (w / 2.0) / w == 0.5;
    assert 2.0 * pos.x / w == 2.0 * (pos.x / w);
    assert 1.5 * (pos.x - w / 2.0) / w == 1.5 * ((pos.x - w / 2.0) / w);
    assert (pos.y - h / 2.0) / h == pos.y / h - (h / 2.0) / h;
    assert (h / 2.0) / h == 0.5;
    assert 2.0 * pos.y / h == 2.0 * (pos.y / h);
  }

  /** The canvas spawns its first source at the centre of its logical size
      mapped through the physical size: that lands on the surface origin
      exactly when the two sizes agree. */
  lemma InitialSpawnAtOriginIff(size: Size, physical: Size)
    requires size.Positive() && physical.Positive()
    ensures SpawnPosition(Point(size.w / 2.0, size.h / 2.0), physical) == Point(0.0, 0.0) <==> size == physical
  {
    var p := SpawnPosition(Point(size.w / 2.0, size.h / 2.0), physical);
    if p == Point(0.0, 0.0) {
      assert (size.w / 2.0 - physical.w / 2.0) / physical.w == 0.0;
      assert (size.h / 2.0 - physical.h / 2.0) / physical.h == 0.0;
    }
  }
}
