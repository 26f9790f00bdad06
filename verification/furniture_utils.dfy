// utils/furnitureUtils.ts: unit conversion, default pose, and the two
// box tests on furniture records.

module FurnitureUtils {
  import opened Types

  /** Centimetres to metres. */
  function CmToM(cm: real): (m: real)
    ensures m * 100.0 == cm
  {
    cm / 100.0
  }

  /** Metres to centimetres. */
  function MToCm(m: real): (cm: real)
    ensures CmToM(cm) == m
  {
    m * 100.0
  }

  /** Converting to metres and back gives the centimetres back. */
  lemma CmRoundTrip(cm: real)
    ensures MToCm(CmToM(cm)) == cm
  {
  }

  function GetDefaultPosition(): (p: Point3D)
    ensures p.x == 0.0 && p.y == 0.0 && p.z == 0.0
  {
    Point3D(0.0, 0.0, 0.0)
  }

  function GetDefaultRotation(): (r: FurnitureRotation)
    ensures r.x == 0.0 && r.y == 0.0 && r.z == 0.0
  {
    FurnitureRotation(0.0, 0.0, 0.0)
  }

  /** The furniture's floor footprint, centred on its position and sized in
      centimetres, lies inside the box (walls included). */
  function IsFurnitureInBounds(f: Furniture, b: Bounds): (r: bool)
    ensures r <==> (b.minX <= f.position.x - f.size.width / 200.0
                    && f.position.x + f.size.width / 200.0 <= b.maxX
                    && b.minZ <= f.position.z - f.size.depth / 200.0
                    && f.position.z + f.size.depth / 200.0 <= b.maxZ)
  {
    var halfWidth := CmToM(f.size.width) / 2.0;
    var halfDepth := CmToM(f.size.depth) / 2.0;
    var minX := f.position.x - halfWidth;
    var maxX := f.position.x + halfWidth;
    var minZ := f.position.z - halfDepth;
    var maxZ := f.position.z + halfDepth;
    minX >= b.minX && maxX <= b.maxX && minZ >= b.minZ && maxZ <= b.maxZ
  }

  /** Two distinct pieces in the same room whose boxes overlap with positive
      volume (`Math.abs` of the centre distance below the summed half sizes,
      on all three axes). */
  function CheckFurnitureCollision(f1: Furniture, f2: Furniture): (r: bool)
    ensures r ==> f1.id != f2.id && f1.roomId == f2.roomId
  {
    if f1.id == f2.id || f1.roomId != f2.roomId then false
    else
      var half1Width := CmToM(f1.size.width) / 2.0;
      var half1Depth := CmToM(f1.size.depth) / 2.0;
      var half1Height := CmToM(f1.size.height) / 2.0;
      var half2Width := CmToM(f2.size.width) / 2.0;
      var half2Depth := CmToM(f2.size.depth) / 2.0;
      var half2Height := CmToM(f2.size.height) / 2.0;
      Abs(f1.position.x - f2.position.x) < half1Width + half2Width
      && Abs(f1.position.y - f2.position.y) < half1Height + half2Height
      && Abs(f1.position.z - f2.position.z) < half1Depth + half2Depth
  }

  /** The open interval `(centre - size/200, centre + size/200)` of one axis
      of a piece, in metres. */
  predicate OpenIntervalsMeet(c1: real, size1: real, c2: real, size2: real) {
    c1 - size1 / 200.0 < c2 + size2 / 200.0 && c2 - size2 / 200.0 < c1 + size1 / 200.0
  }

  /** The collision test is exactly "the open boxes intersect on all three
      axes", for distinct pieces in one room. */
  lemma CollisionIsBoxOverlap(f1: Furniture, f2: Furniture)
    ensures CheckFurnitureCollision(f1, f2) <==>
      (f1.id != f2.id && f1.roomId == f2.roomId
       && OpenIntervalsMeet(f1.position.x, f1.size.width, f2.position.x, f2.size.width)
       && OpenIntervalsMeet(f1.position.y, f1.size.height, f2.position.y, f2.size.height)
       && OpenIntervalsMeet(f1.position.z, f1.size.depth, f2.position.z, f2.size.depth))
  {
  }

  lemma CollisionSymmetric(f1: Furniture, f2: Furniture)
    ensures CheckFurnitureCollision(f1, f2) == CheckFurnitureCollision(f2, f1)
  {
    CollisionIsBoxOverlap(f1, f2);
    CollisionIsBoxOverlap(f2, f1);
  }

  /** Pieces that only touch face to face, on any of the three axes and
      from either side, do not collide. */
  lemma TouchingDoesNotCollide(f1: Furniture, f2: Furniture)
    requires || Abs(f1.position.x - f2.position.x) == (f1.size.width + f2.size.width) / 200.0
             || Abs(f1.position.y - f2.position.y) == (f1.size.height + f2.size.height) / 200.0
             || Abs(f1.position.z - f2.position.z) == (f1.size.depth + f2.size.depth) / 200.0
    ensures !CheckFurnitureCollision(f1, f2)
  {
    CollisionIsBoxOverlap(f1, f2);
  }

  /** Distinct pieces of positive size at the same spot of one room collide. */
  lemma SamePositionCollides(f1: Furniture, f2: Furniture)
    requires f1.id != f2.id && f1.roomId == f2.roomId && f1.position == f2.position
    requires f1.size.width > 0.0 && f1.size.height > 0.0 && f1.size.depth > 0.0
    requires f2.size.width > 0.0 && f2.size.height > 0.0 && f2.size.depth > 0.0
    ensures CheckFurnitureCollision(f1, f2)
  {
  }
}
