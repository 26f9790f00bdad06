// How the pieces fit together: the generated outlines pass the orthogonal
// polygon check, the point test on a generated rectangle, its bounding
// box, what the placement constraint does inside a rectangular room, and
// the point test on an L's cut-out corner.

module ShapeGeometry {
  import opened Types
  import opened PresetShapes
  import opened RoomUtils
  import opened RoomBounds
  import FurnitureUtils
  import RoomForm

  // ---------------------------------------------------------------------
  // Generated outlines

  /** A rectangle is the four corners of `[0, w] x [0, d]` in the order
      origin, `(w, 0)`, `(w, d)`, `(0, d)`, with `w` and `d` the sizes in
      metres. */
  lemma RectangleCorners(params: RectangleParams)
    ensures var w, d := params.width / 100.0, params.depth / 100.0;
      GenerateRectangle(params) == [Point2D(0.0, 0.0), Point2D(w, 0.0), Point2D(w, d), Point2D(0.0, d)]
  {
  }

  /** A rectangle of positive size passes `validateOrthogonalPolygon`. */
  lemma RectangleIsOrthogonal(params: RectangleParams)
    requires params.width > 0.0 && params.depth > 0.0
    ensures IsOrthogonal(GenerateRectangle(params))
  {
    var vs := GenerateRectangle(params);
    RectangleCorners(params);
    forall i | 0 <= i < 4 ensures CornerOk(vs, i) {
      assert Prev(i, 4) == if i == 0 then 3 else i - 1;
    }
  }

  /** A proper L passes `validateOrthogonalPolygon`. */
  lemma LShapeIsOrthogonal(params: LShapeParams)
    requires ProperLShape(params)
    ensures IsOrthogonal(GenerateLShape(params))
  {
    var vs := GenerateLShape(params);
    var w, d := params.width / 100.0, params.depth / 100.0;
    var cw, cd := params.cutoutWidth / 100.0, params.cutoutDepth / 100.0;
    assert vs == [ Point2D(0.0, 0.0), Point2D(w, 0.0), Point2D(w, d - cd),
                   Point2D(w - cw, d - cd), Point2D(w - cw, d), Point2D(0.0, d) ];
    forall i | 0 <= i < 6 ensures CornerOk(vs, i) {
      assert Prev(i, 6) == if i == 0 then 5 else i - 1;
    }
  }

  /** A proper U passes `validateOrthogonalPolygon`. */
  lemma UShapeIsOrthogonal(params: UShapeParams)
    requires ProperUShape(params)
    ensures IsOrthogonal(GenerateUShape(params))
  {
    var w, d := params.width / 100.0, params.depth / 100.0;
    var ow, ad := params.openingWidth / 100.0, params.armDepth / 100.0;
    var a := (w - ow) / 2.0;
    UOutlineIsOrthogonal(a, ow, w, d - ad, d);
    assert GenerateUShape(params)
      == [ Point2D(0.0, 0.0), Point2D(a, 0.0), Point2D(a, d - ad), Point2D(a + ow, d - ad),
           Point2D(a + ow, 0.0), Point2D(w, 0.0), Point2D(w, d), Point2D(0.0, d) ];
  }

  /** The U outline with arm width `a`, notch width `ow` and notch depth
      `nd`, in a `w` x `d` box. */
  lemma UOutlineIsOrthogonal(a: real, ow: real, w: real, nd: real, d: real)
    requires 0.0 < a && 0.0 < ow && a + ow < w && 0.0 < nd < d
    ensures IsOrthogonal([ Point2D(0.0, 0.0), Point2D(a, 0.0), Point2D(a, nd), Point2D(a + ow, nd),
                           Point2D(a + ow, 0.0), Point2D(w, 0.0), Point2D(w, d), Point2D(0.0, d) ])
  {
    var vs := [ Point2D(0.0, 0.0), Point2D(a, 0.0), Point2D(a, nd), Point2D(a + ow, nd),
                Point2D(a + ow, 0.0), Point2D(w, 0.0), Point2D(w, d), Point2D(0.0, d) ];
    forall i | 0 <= i < 8 ensures CornerOk(vs, i) {
      assert Prev(i, 8) == if i == 0 then 7 else i - 1;
    }
  }

  /** The selected shape's parameters describe a proper shape. */
  predicate ProperParams(shapeType: ShapeType, params: ShapeParams) {
    match shapeType
    case Rectangle => params.rectangle.width > 0.0 && params.rectangle.depth > 0.0
    case LShape => ProperLShape(params.lShape)
    case UShape => ProperUShape(params.uShape)
  }

  /** Every outline generated from proper parameters passes the check. */
  lemma GeneratedIsOrthogonal(shapeType: ShapeType, params: ShapeParams)
    requires ProperParams(shapeType, params)
    ensures IsOrthogonal(GenerateVertices(shapeType, params))
  {
    match shapeType
    case Rectangle => RectangleIsOrthogonal(params.rectangle);
    case LShape => LShapeIsOrthogonal(params.lShape);
    case UShape => UShapeIsOrthogonal(params.uShape);
  }

  /** The three default outlines pass the check. */
  lemma DefaultShapesAreOrthogonal(shapeType: ShapeType)
    ensures IsOrthogonal(GenerateVertices(shapeType, DefaultShapeParams))
  {
    DefaultsAreProper();
    GeneratedIsOrthogonal(shapeType, DefaultShapeParams);
  }

  /** A room the room form adds has an orthogonal outline whenever the
      selected shape's parameters are proper, the defaults among them. */
  lemma AddedRoomIsOrthogonal(data: RoomForm.RoomFormData, roomCount: nat, newId: string)
    requires ProperParams(data.shapeType, data.shapeParams)
    ensures var r := RoomForm.SubmitRoom(data, None, roomCount, newId);
      r.Added? ==> IsOrthogonal(r.room.vertices)
  {
    GeneratedIsOrthogonal(data.shapeType, data.shapeParams);
  }

  // ---------------------------------------------------------------------
  // A rectangular room

  /** The crossing count of a rectangle: the left wall `x = 0` crosses for
      points left of it, the right wall `x = w` for points left of it, both
      only inside the band `0 <= z < d`; the other two walls are
      horizontal. */
  lemma RectangleCrossings(params: RectangleParams, p: PlanePoint)
    requires params.width > 0.0 && params.depth > 0.0
    ensures var w, d := params.width / 100.0, params.depth / 100.0;
      var band := 0.0 <= p.z < d;
      CrossingCount(p, GenerateRectangle(params), 4)
        == (if band && p.x < 0.0 then 1 else 0) + (if band && p.x < w then 1 else 0)
  {
    var vs := GenerateRectangle(params);
    var w, d := params.width / 100.0, params.depth / 100.0;
    RectangleCorners(params);
    var band := 0.0 <= p.z < d;
    var left := if band && p.x < 0.0 then 1 else 0;
    var right := if band && p.x < w then 1 else 0;
    assert CrossingCount(p, vs, 1) == left by {
      WallCrossing(p, 0.0, 0.0, d);
    }
    assert CrossingCount(p, vs, 2) == left;
    assert CrossingCount(p, vs, 3) == left + right by {
      WallCrossing(p, w, d, 0.0);
    }
  }

  /** The ray from `p` crosses a vertical wall at `x0` from `y0` to `y1`
      exactly when the wall straddles its line and lies to its right. */
  lemma WallCrossing(p: PlanePoint, x0: real, y0: real, y1: real)
    ensures Crosses(p, Point2D(x0, y0), Point2D(x0, y1)) <==> ((y0 > p.z) != (y1 > p.z) && p.x < x0)
  {
    assert (x0 - x0) * (p.z - y0) == 0.0;
  }

  /** A generated rectangle contains exactly the points of the half-open
      box `[0, w) x [0, d)`: the walls at the origin are inside, the far
      walls are not. */
  lemma RectangleContains(params: RectangleParams, p: PlanePoint)
    requires params.width > 0.0 && params.depth > 0.0
    ensures PointInPolygon(p, GenerateRectangle(params))
      <==> (0.0 <= p.x < params.width / 100.0 && 0.0 <= p.z < params.depth / 100.0)
  {
    RectangleCrossings(params, p);
  }

  /** The bounding box of a generated rectangle is the rectangle itself. */
  lemma RectangleBounds(params: RectangleParams)
    requires params.width >= 0.0 && params.depth >= 0.0
    ensures BoundsOf(GenerateRectangle(params)) == Bounds(0.0, params.width / 100.0, 0.0, params.depth / 100.0)
  {
    var vs := GenerateRectangle(params);
    var b := BoundsOf(vs);
    BoundsTight(vs);
    assert b.minX <= vs[0].x && vs[2].x <= b.maxX && b.minZ <= vs[0].y && vs[2].y <= b.maxZ;
  }

  /** A piece whose clamped footprint is flush against the far `x` wall of
      a rectangular room has a corner on that wall, which the half-open
      point test puts outside: the position is nudged instead of kept. */
  lemma FlushAgainstFarWallIsNudged(room: Room, params: RectangleParams, position: PlanePoint, size: Footprint)
    requires params.width > 0.0 && params.depth > 0.0 && room.vertices == GenerateRectangle(params)
    requires 0.0 <= size.width <= params.width / 100.0 && 0.0 <= size.depth <= params.depth / 100.0
    requires position.x >= params.width / 100.0 - size.width / 2.0
    ensures ConstrainFurnitureToRoom(position, size, room) != Clamped(position, size, room)
  {
    var w := params.width / 100.0;
    RectangleBounds(params);
    var c := Clamped(position, size, room);
    assert c.x == w - size.width / 2.0;
    var cs := Corners(c, size.width / 2.0, size.depth / 2.0);
    RectangleContains(params, cs[1]);
    assert !PointInPolygon(cs[1], room.vertices);
  }

  /** A piece whose footprint lies inside a rectangular room, clear of the
      two far walls, stays where it is. */
  lemma InteriorPositionKept(room: Room, params: RectangleParams, position: PlanePoint, size: Footprint)
    requires params.width > 0.0 && params.depth > 0.0 && room.vertices == GenerateRectangle(params)
    requires size.width >= 0.0 && size.depth >= 0.0
    requires size.width / 2.0 <= position.x && position.x + size.width / 2.0 < params.width / 100.0
    requires size.depth / 2.0 <= position.z && position.z + size.depth / 2.0 < params.depth / 100.0
    ensures ConstrainFurnitureToRoom(position, size, room) == position
  {
    RectangleBounds(params);
    var c := Clamped(position, size, room);
    assert c == position;
    var cs := Corners(c, size.width / 2.0, size.depth / 2.0);
    forall k | 0 <= k < 4 ensures PointInPolygon(cs[k], room.vertices) {
      RectangleContains(params, cs[k]);
    }
  }

  /** Clamping is what keeps a piece inside the room's box: a piece that
      fits the box, moved to its clamped centre, passes
      `isFurnitureInBounds` for that box. */
  lemma ClampedIsInBounds(f: Furniture, room: Room)
    requires var b := BoundsOf(room.vertices);
      f.size.width / 100.0 <= b.maxX - b.minX && f.size.depth / 100.0 <= b.maxZ - b.minZ
    ensures var size := Footprint(FurnitureUtils.CmToM(f.size.width), FurnitureUtils.CmToM(f.size.depth));
      var c := Clamped(PlanePoint(f.position.x, f.position.z), size, room);
      FurnitureUtils.IsFurnitureInBounds(f.(position := Point3D(c.x, f.position.y, c.z)), BoundsOf(room.vertices))
  {
  }

  // ---------------------------------------------------------------------
  // An L-shaped room

  /** A point in the corner an L cuts out lies inside the L's bounding box
      but outside the L: none of its three vertical walls has the point on
      its left within the wall's span. */
  lemma LCutoutOutside(params: LShapeParams, p: PlanePoint)
    requires ProperLShape(params)
    requires (params.width - params.cutoutWidth) / 100.0 < p.x < params.width / 100.0
    requires (params.depth - params.cutoutDepth) / 100.0 < p.z < params.depth / 100.0
    ensures var b := BoundsOf(GenerateLShape(params));
      b.minX < p.x < b.maxX && b.minZ < p.z < b.maxZ
    ensures !PointInPolygon(p, GenerateLShape(params))
  {
    var vs := GenerateLShape(params);
    var w, d := params.width / 100.0, params.depth / 100.0;
    var cw, cd := params.cutoutWidth / 100.0, params.cutoutDepth / 100.0;
    assert vs == [ Point2D(0.0, 0.0), Point2D(w, 0.0), Point2D(w, d - cd),
                   Point2D(w - cw, d - cd), Point2D(w - cw, d), Point2D(0.0, d) ];
    WallCrossing(p, 0.0, 0.0, d);
    WallCrossing(p, w, d - cd, 0.0);
    WallCrossing(p, w - cw, d, d - cd);
    forall i | 0 <= i < 6 ensures !Crosses(p, vs[i], vs[Prev(i, 6)]) {
      assert Prev(i, 6) == if i == 0 then 5 else i - 1;
    }
    NoCrossingZeroCount(p, vs, 6);
    BoundsTight(vs);
    assert BoundsOf(vs).minX <= vs[0].x && vs[1].x <= BoundsOf(vs).maxX;
    assert BoundsOf(vs).minZ <= vs[0].y && vs[5].y <= BoundsOf(vs).maxZ;
  }
}
