// utils/presetShapes.ts: the three preset room outlines, generated from
// parameters in centimetres as vertex cycles in metres starting at the
// origin.

module PresetShapes {
  import opened Types
  import FurnitureUtils

  datatype ShapeType = Rectangle | LShape | UShape

  datatype RectangleParams = RectangleParams(width: real, depth: real)

  datatype LShapeParams = LShapeParams(width: real, depth: real, cutoutWidth: real, cutoutDepth: real)

  datatype UShapeParams = UShapeParams(width: real, depth: real, openingWidth: real, armDepth: real)

  datatype ShapeParams = ShapeParams(rectangle: RectangleParams, lShape: LShapeParams, uShape: UShapeParams)

  /** presetShapes.ts keeps a private copy of the centimetre-to-metre
      conversion; it is the same division by 100. */
  function CmToM(cm: real): real {
    FurnitureUtils.CmToM(cm)
  }

  const Origin := Point2D(0.0, 0.0)

  /** The four corners of a `width` x `depth` rectangle. */
  function GenerateRectangle(params: RectangleParams): (vs: seq<Point2D>)
    ensures |vs| == 4 && vs[0] == Origin
    ensures EdgesAxisAligned(vs)
    ensures forall i :: 0 <= i < |vs| ==>
      (vs[i].x == 0.0 || vs[i].x == params.width / 100.0) && (vs[i].y == 0.0 || vs[i].y == params.depth / 100.0)
  {
    var w := CmToM(params.width);
    var d := CmToM(params.depth);
    [Point2D(0.0, 0.0), Point2D(w, 0.0), Point2D(w, d), Point2D(0.0, d)]
  }

  /** An L: the full rectangle without its far corner block
      `[w - cw, w] x [d - cd, d]`. */
  function GenerateLShape(params: LShapeParams): (vs: seq<Point2D>)
    ensures |vs| == 6 && vs[0] == Origin
    ensures EdgesAxisAligned(vs)
    ensures 0.0 <= params.cutoutWidth <= params.width && 0.0 <= params.cutoutDepth <= params.depth ==>
      forall i :: 0 <= i < |vs| ==>
        0.0 <= vs[i].x <= params.width / 100.0 && 0.0 <= vs[i].y <= params.depth / 100.0
    ensures 0.0 < params.cutoutWidth < params.width && 0.0 < params.cutoutDepth < params.depth ==>
      Point2D(params.width / 100.0, params.depth / 100.0) !in vs
  {
    var w := CmToM(params.width);
    var d := CmToM(params.depth);
    var cw := CmToM(params.cutoutWidth);
    var cd := CmToM(params.cutoutDepth);
    [ Point2D(0.0, 0.0),
      Point2D(w, 0.0),
      Point2D(w, d - cd),
      Point2D(w - cw, d - cd),
      Point2D(w - cw, d),
      Point2D(0.0, d) ]
  }

  /** A U: two arms of width `(w - ow) / 2` running the full depth, joined
      at the back by a strip `ad` deep; the notch between the arms is
      `ow` wide and reaches from the front edge to `d - ad`. */
  function GenerateUShape(params: UShapeParams): (vs: seq<Point2D>)
    ensures |vs| == 8 && vs[0] == Origin
    ensures EdgesAxisAligned(vs)
    ensures vs[1].x - vs[0].x == (params.width - params.openingWidth) / 200.0
    ensures vs[5].x - vs[4].x == (params.width - params.openingWidth) / 200.0
    ensures vs[4].x - vs[1].x == params.openingWidth / 100.0
  {
    var w := CmToM(params.width);
    var d := CmToM(params.depth);
    var ow := CmToM(params.openingWidth);
    var ad := CmToM(params.armDepth);
    var armWidth := (w - ow) / 2.0;
    [ Point2D(0.0, 0.0),
      Point2D(armWidth, 0.0),
      Point2D(armWidth, d - ad),
      Point2D(armWidth + ow, d - ad),
      Point2D(armWidth + ow, 0.0),
      Point2D(w, 0.0),
      Point2D(w, d),
      Point2D(0.0, d) ]
  }

  /** Where each U vertex lands under the mirror `x -> w - x`. */
  const UMirror: seq<nat> := [5, 4, 3, 2, 1, 0, 7, 6]

  /** The U is symmetric about its centre line: mirroring vertex `i` gives
      vertex `UMirror[i]`, so the vertex set maps onto itself. */
  lemma UShapeMirror(params: UShapeParams)
    ensures var vs := GenerateUShape(params);
      forall i :: 0 <= i < 8 ==> vs[UMirror[i]] == Point2D(params.width / 100.0 - vs[i].x, vs[i].y)
  {
    var vs := GenerateUShape(params);
    forall i | 0 <= i < 8 ensures vs[UMirror[i]] == Point2D(params.width / 100.0 - vs[i].x, vs[i].y) {
      assert UMirror[i] == [5, 4, 3, 2, 1, 0, 7, 6][i];
    }
  }

  /** The outline for the selected shape (RoomForm's `generateVertices`
      dispatch, which reads only the selected shape's parameters). */
  function GenerateVertices(shapeType: ShapeType, params: ShapeParams): (vs: seq<Point2D>)
    ensures |vs| == match shapeType case Rectangle => 4 case LShape => 6 case UShape => 8
    ensures vs[0] == Origin && EdgesAxisAligned(vs)
  {
    match shapeType
    case Rectangle => GenerateRectangle(params.rectangle)
    case LShape => GenerateLShape(params.lShape)
    case UShape => GenerateUShape(params.uShape)
  }

  const DefaultShapeParams := ShapeParams(
    RectangleParams(400.0, 300.0),
    LShapeParams(500.0, 400.0, 200.0, 200.0),
    UShapeParams(600.0, 400.0, 200.0, 200.0))

  /** Parameters for which the L outline is a proper L. */
  predicate ProperLShape(p: LShapeParams) {
    0.0 < p.cutoutWidth < p.width && 0.0 < p.cutoutDepth < p.depth
  }

  /** Parameters for which the U outline is a proper U. */
  predicate ProperUShape(p: UShapeParams) {
    0.0 < p.openingWidth < p.width && 0.0 < p.armDepth < p.depth
  }

  /** The default parameters give a non-degenerate rectangle, a proper L and
      a proper U. */
  lemma DefaultsAreProper()
    ensures DefaultShapeParams.rectangle.width > 0.0 && DefaultShapeParams.rectangle.depth > 0.0
    ensures ProperLShape(DefaultShapeParams.lShape)
    ensures ProperUShape(DefaultShapeParams.uShape)
  {
  }
}
