// utils/roomBounds.ts: the bounding box of a room, the crossing-number
// point-in-polygon test, and the placement constraint that keeps a
// furniture footprint inside a room.

module RoomBounds {
  import opened Types

  // ---------------------------------------------------------------------
  // calculateRoomBounds

  datatype Axis = X | Y

  function Coord(p: Point2D, a: Axis): real {
    match a
    case X => p.x
    case Y => p.y
  }

  /** `Math.min` and `Math.max` on two numbers. */
  function Min(a: real, b: real): (m: real)
    ensures m <= a && m <= b && (m == a || m == b)
  {
    if a <= b then a else b
  }

  function Max(a: real, b: real): (m: real)
    ensures a <= m && b <= m && (m == a || m == b)
  {
    if a >= b then a else b
  }

  /** The least `a`-coordinate of the vertices, folding left to right. */
  function MinOf(vs: seq<Point2D>, a: Axis): (m: real)
    requires |vs| > 0
    ensures forall i :: 0 <= i < |vs| ==> m <= Coord(vs[i], a)
  {
    if |vs| == 1 then Coord(vs[0], a)
    else
      var m := MinOf(vs[..|vs| - 1], a);
      assert forall i :: 0 <= i < |vs| - 1 ==> vs[..|vs| - 1][i] == vs[i];
      Min(m, Coord(vs[|vs| - 1], a))
  }

  /** The greatest `a`-coordinate of the vertices, folding left to right. */
  function MaxOf(vs: seq<Point2D>, a: Axis): (m: real)
    requires |vs| > 0
    ensures forall i :: 0 <= i < |vs| ==> Coord(vs[i], a) <= m
  {
    if |vs| == 1 then Coord(vs[0], a)
    else
      var m := MaxOf(vs[..|vs| - 1], a);
      assert forall i :: 0 <= i < |vs| - 1 ==> vs[..|vs| - 1][i] == vs[i];
      Max(m, Coord(vs[|vs| - 1], a))
  }

  /** The least and the greatest coordinate are coordinates of vertices. */
  lemma {:induction false} Attained(vs: seq<Point2D>, a: Axis)
    requires |vs| > 0
    ensures exists i :: 0 <= i < |vs| && MinOf(vs, a) == Coord(vs[i], a)
    ensures exists i :: 0 <= i < |vs| && MaxOf(vs, a) == Coord(vs[i], a)
  {
    if |vs| > 1 {
      var init := vs[..|vs| - 1];
      Attained(init, a);
      var i :| 0 <= i < |init| && MinOf(init, a) == Coord(init[i], a);
      var j :| 0 <= j < |init| && MaxOf(init, a) == Coord(init[j], a);
      assert init[i] == vs[i] && init[j] == vs[j];
      if MinOf(vs, a) != Coord(vs[i], a) {
        assert MinOf(vs, a) == Coord(vs[|vs| - 1], a);
      }
      if MaxOf(vs, a) != Coord(vs[j], a) {
        assert MaxOf(vs, a) == Coord(vs[|vs| - 1], a);
      }
    } else {
      assert MinOf(vs, a) == Coord(vs[0], a);
    }
  }

  /** The box the room's vertices span, the plane `y` reported as `z`; all
      zeros for a room without vertices. */
  function BoundsOf(vs: seq<Point2D>): (b: Bounds)
    ensures |vs| == 0 ==> b == Bounds(0.0, 0.0, 0.0, 0.0)
    ensures forall i :: 0 <= i < |vs| ==> b.minX <= vs[i].x <= b.maxX && b.minZ <= vs[i].y <= b.maxZ
  {
    if |vs| == 0 then Bounds(0.0, 0.0, 0.0, 0.0)
    else Bounds(MinOf(vs, X), MaxOf(vs, X), MinOf(vs, Y), MaxOf(vs, Y))
  }

  /** Each side of the box touches a vertex: it is the smallest box holding
      them all. */
  lemma BoundsTight(vs: seq<Point2D>)
    requires |vs| > 0
    ensures var b := BoundsOf(vs);
      && (exists i :: 0 <= i < |vs| && vs[i].x == b.minX)
      && (exists i :: 0 <= i < |vs| && vs[i].x == b.maxX)
      && (exists i :: 0 <= i < |vs| && vs[i].y == b.minZ)
      && (exists i :: 0 <= i < |vs| && vs[i].y == b.maxZ)
  {
    Attained(vs, X);
    Attained(vs, Y);
  }

  /** `calculateRoomBounds`: starts from the first vertex and widens the box
      by every vertex in turn (the first one included again). */
  method CalculateRoomBounds(room: Room) returns (b: Bounds)
    ensures b == BoundsOf(room.vertices)
  {
    var vs := room.vertices;
    if |vs| == 0 {
      return Bounds(0.0, 0.0, 0.0, 0.0);
    }
    var minX := vs[0].x;
    var maxX := vs[0].x;
    var minY := vs[0].y;
    var maxY := vs[0].y;
    var i := 0;
    while i < |vs|
      invariant 0 <= i <= |vs|
      invariant i == 0 ==> minX == maxX == vs[0].x && minY == maxY == vs[0].y
      invariant i > 0 ==> minX == MinOf(vs[..i], X) && maxX == MaxOf(vs[..i], X)
      invariant i > 0 ==> minY == MinOf(vs[..i], Y) && maxY == MaxOf(vs[..i], Y)
    {
      if i > 0 {
        PrefixStep(vs, i);
      } else {
        assert vs[..1] == [vs[0]];
      }
      minX := Min(minX, vs[i].x);
      maxX := Max(maxX, vs[i].x);
      minY := Min(minY, vs[i].y);
      maxY := Max(maxY, vs[i].y);
      i := i + 1;
    }
    assert vs[..|vs|] == vs;
    b := Bounds(minX, maxX, minY, maxY);
  }

  /** Widening the box of a prefix by the next vertex gives the box of the
      longer prefix. */
  lemma PrefixStep(vs: seq<Point2D>, i: nat)
    requires 1 <= i < |vs|
    ensures MinOf(vs[..i + 1], X) == Min(MinOf(vs[..i], X), vs[i].x)
    ensures MaxOf(vs[..i + 1], X) == Max(MaxOf(vs[..i], X), vs[i].x)
    ensures MinOf(vs[..i + 1], Y) == Min(MinOf(vs[..i], Y), vs[i].y)
    ensures MaxOf(vs[..i + 1], Y) == Max(MaxOf(vs[..i], Y), vs[i].y)
  {
    assert vs[..i + 1][..i] == vs[..i];
  }

  // ---------------------------------------------------------------------
  // isPointInPolygon

  /** A point of the floor plane: `x` and `z` in the 3D scene. */
  datatype PlanePoint = PlanePoint(x: real, z: real)

  /** Whether the ray from `p` towards +x crosses the edge from `vj` to
      `vi`: the edge straddles the line `y = p.z` (one end strictly above,
      the other not) and the crossing lies strictly right of `p`. The
      division only happens for an edge whose ends differ in `y`. */
  function Crosses(p: PlanePoint, vi: Point2D, vj: Point2D): (r: bool)
    ensures r ==> vi.y != vj.y
  {
    ((vi.y > p.z) != (vj.y > p.z)) && (p.x < (vj.x - vi.x) * (p.z - vi.y) / (vj.y - vi.y) + vi.x)
  }

  /** The number of crossing edges among the first `n` steps of the loop,
      where step `i` pairs vertex `i` with the vertex before it. */
  function CrossingCount(p: PlanePoint, vs: seq<Point2D>, n: nat): nat
    requires n <= |vs|
  {
    if n == 0 then 0
    else CrossingCount(p, vs, n - 1) + (if Crosses(p, vs[n - 1], vs[Prev(n - 1, |vs|)]) then 1 else 0)
  }

  /** The even-odd rule: inside when an odd number of edges cross. */
  predicate PointInPolygon(p: PlanePoint, vs: seq<Point2D>) {
    CrossingCount(p, vs, |vs|) % 2 == 1
  }

  /** `isPointInPolygon`: walks the edges `(j, i)` with `j` trailing `i`,
      toggling `inside` at each crossing (the test written inline in the
      loop is `Crosses`). */
  method IsPointInPolygon(point: PlanePoint, vertices: seq<Point2D>) returns (inside: bool)
    ensures inside == PointInPolygon(point, vertices)
  {
    inside := false;
    var i := 0;
    var j: int := |vertices| - 1;
    while i < |vertices|
      invariant 0 <= i <= |vertices|
      invariant i < |vertices| ==> j == Prev(i, |vertices|)
      invariant inside == (CrossingCount(point, vertices, i) % 2 == 1)
    {
      assert CrossingCount(point, vertices, i + 1)
        == CrossingCount(point, vertices, i) + (if Crosses(point, vertices[i], vertices[j]) then 1 else 0);
      if Crosses(point, vertices[i], vertices[j]) {
        inside := !inside;
      }
      j := i;
      i := i + 1;
    }
  }

  /** No crossing among the first `n` steps means a zero count. */
  lemma {:induction false} NoCrossingZeroCount(p: PlanePoint, vs: seq<Point2D>, n: nat)
    requires n <= |vs|
    requires forall i :: 0 <= i < n ==> !Crosses(p, vs[i], vs[Prev(i, |vs|)])
    ensures CrossingCount(p, vs, n) == 0
  {
    if n > 0 {
      NoCrossingZeroCount(p, vs, n - 1);
    }
  }

  /** A room without vertices contains no point. */
  lemma EmptyPolygonContainsNothing(p: PlanePoint, vs: seq<Point2D>)
    requires |vs| == 0
    ensures !PointInPolygon(p, vs)
  {
  }

  /** A point below every vertex, or at or above every vertex, is outside:
      no edge straddles its line. */
  lemma OutsideVerticalRange(p: PlanePoint, vs: seq<Point2D>)
    requires (forall i :: 0 <= i < |vs| ==> p.z < vs[i].y) || (forall i :: 0 <= i < |vs| ==> vs[i].y <= p.z)
    ensures !PointInPolygon(p, vs)
  {
    NoCrossingZeroCount(p, vs, |vs|);
  }

  // ---------------------------------------------------------------------
  // constrainFurnitureToRoom

  /** A furniture footprint in metres. */
  datatype Footprint = Footprint(width: real, depth: real)

  /** `Math.max(lo, Math.min(hi, v))`: `v` pulled into `[lo, hi]`, with
      `lo` winning when the interval is empty. */
  function Clamp(lo: real, hi: real, v: real): (c: real)
    ensures lo <= c
    ensures lo <= hi ==> c <= hi
    ensures lo <= v <= hi ==> c == v
  {
    Max(lo, Min(hi, v))
  }

  /** The four corners of a footprint centred at `c`, in the order the
      source lists them. */
  function Corners(c: PlanePoint, halfWidth: real, halfDepth: real): (cs: seq<PlanePoint>)
    ensures |cs| == 4
  {
    [ PlanePoint(c.x - halfWidth, c.z - halfDepth),
      PlanePoint(c.x + halfWidth, c.z - halfDepth),
      PlanePoint(c.x + halfWidth, c.z + halfDepth),
      PlanePoint(c.x - halfWidth, c.z + halfDepth) ]
  }

  predicate AllCornersInside(cs: seq<PlanePoint>, vs: seq<Point2D>) {
    forall k :: 0 <= k < |cs| ==> PointInPolygon(cs[k], vs)
  }

  /** `reduce((sum, v) => sum + v, 0)` over one coordinate. */
  function Sum(vs: seq<Point2D>, a: Axis): real {
    if vs == [] then 0.0 else Sum(vs[..|vs| - 1], a) + Coord(vs[|vs| - 1], a)
  }

  /** The vertex mean along one axis; `None` is the NaN that `0 / 0` gives
      for a room without vertices. */
  function Mean(vs: seq<Point2D>, a: Axis): (m: Option<real>)
    ensures m.Some? <==> |vs| > 0
  {
    if |vs| == 0 then None else Some(Sum(vs, a) / (|vs| as real))
  }

  /** One 0.1 m step toward the mean: up when the mean is greater, down
      otherwise (equal, or NaN, which compares false). */
  function StepToward(c: real, mean: Option<real>): (r: real)
    ensures r == c + 0.1 || r == c - 0.1
    ensures r > c <==> (mean.Some? && mean.value > c)
  {
    if mean.Some? && mean.value > c then c + 0.1 else c - 0.1
  }

  /** The clamped centre: inside the bounding box inset by half the
      footprint on each side. */
  function Clamped(position: PlanePoint, size: Footprint, room: Room): PlanePoint {
    var b := BoundsOf(room.vertices);
    PlanePoint(Clamp(b.minX + size.width / 2.0, b.maxX - size.width / 2.0, position.x),
               Clamp(b.minZ + size.depth / 2.0, b.maxZ - size.depth / 2.0, position.z))
  }

  /** `constrainFurnitureToRoom`: the clamped centre when all four corners of
      the footprint there pass the point test, and otherwise the clamped
      centre moved 0.1 m toward the vertex mean on each axis. */
  function ConstrainFurnitureToRoom(position: PlanePoint, size: Footprint, room: Room): (r: PlanePoint)
    ensures var c := Clamped(position, size, room);
      && (r == c <==> AllCornersInside(Corners(c, size.width / 2.0, size.depth / 2.0), room.vertices))
      && (r != c ==> (r.x == c.x + 0.1 || r.x == c.x - 0.1) && (r.z == c.z + 0.1 || r.z == c.z - 0.1))
    ensures var c := Clamped(position, size, room);
      r != c ==> ((r.x > c.x <==> (room.vertices != [] && Sum(room.vertices, X) / (|room.vertices| as real) > c.x))
              && (r.z > c.z <==> (room.vertices != [] && Sum(room.vertices, Y) / (|room.vertices| as real) > c.z)))
  {
    var c := Clamped(position, size, room);
    var halfWidth := size.width / 2.0;
    var halfDepth := size.depth / 2.0;
    if !AllCornersInside(Corners(c, halfWidth, halfDepth), room.vertices) then
      PlanePoint(StepToward(c.x, Mean(room.vertices, X)), StepToward(c.z, Mean(room.vertices, Y)))
    else c
  }
}
