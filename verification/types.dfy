// Shared records of the layout editor (types/room.ts, types/furniture.ts,
// types/project.ts). Lengths are `real`: metres for positions and room
// vertices, centimetres for furniture sizes, as the field comments say.

module Types {

  /** A JavaScript `T | null` (or an optional property). */
  datatype Option<T> = None | Some(value: T)

  /** A room-plane point; `y` is the second plane axis (it becomes Z in 3D). */
  datatype Point2D = Point2D(x: real, y: real)

  /** An orthogonal room: vertices in metres, height in metres. */
  datatype Room = Room(
    id: string,
    name: string,
    vertices: seq<Point2D>,
    height: real,
    floorColor: Option<string>,
    wallColor: Option<string>)

  /** The index after `i` around a cycle of `n` vertices: `(i + 1) % n`. */
  function Next(i: nat, n: nat): (j: nat)
    requires i < n
    ensures j < n
  {
    if i + 1 == n then 0 else i + 1
  }

  /** The index before `i` around a cycle of `n` vertices: `(i - 1 + n) % n`. */
  function Prev(i: nat, n: nat): (j: nat)
    requires i < n
    ensures j < n && Next(j, n) == i
  {
    if i == 0 then n - 1 else i - 1
  }

  /** `Math.abs`. */
  function Abs(v: real): (a: real)
    ensures a >= 0.0 && (a == v || a == -v)
  {
    if v < 0.0 then -v else v
  }

  /** Every edge of the vertex cycle, the closing one included, is
      horizontal or vertical. */
  ghost predicate EdgesAxisAligned(vs: seq<Point2D>) {
    forall i :: 0 <= i < |vs| ==> vs[i].x == vs[Next(i, |vs|)].x || vs[i].y == vs[Next(i, |vs|)].y
  }

  /** The axis-aligned box around a room's vertices (`interface RoomBounds`);
      the vertices' `y` is reported as `z`. */
  datatype Bounds = Bounds(minX: real, maxX: real, minZ: real, maxZ: real)

  /** A position in metres; `y` is vertical. */
  datatype Point3D = Point3D(x: real, y: real, z: real)

  /** A furniture size in centimetres. */
  datatype FurnitureSize = FurnitureSize(width: real, height: real, depth: real)

  /** A furniture rotation in radians. */
  datatype FurnitureRotation = FurnitureRotation(x: real, y: real, z: real)

  datatype Furniture = Furniture(
    id: string,
    name: string,
    position: Point3D,
    size: FurnitureSize,
    rotation: FurnitureRotation,
    color: string,
    roomId: Option<string>)

  /** A saved project (timestamps are ISO strings handed in by the caller). */
  datatype Project = Project(
    id: string,
    name: string,
    rooms: seq<Room>,
    furniture: seq<Furniture>,
    createdAt: string,
    updatedAt: string,
    version: string)

  datatype ProjectMetadata = ProjectMetadata(
    id: string,
    name: string,
    createdAt: string,
    updatedAt: string,
    roomCount: nat,
    furnitureCount: nat)
}
