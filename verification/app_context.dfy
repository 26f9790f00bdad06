// contexts/AppContext.tsx: the room store shared by the editor — the room
// list, the active room, and the operations that change them.

module AppContext {
  import opened Types

  /** A `Partial<Room>`: the fields present in the update. */
  datatype RoomPatch = RoomPatch(
    id: Option<string>,
    name: Option<string>,
    vertices: Option<seq<Point2D>>,
    height: Option<real>,
    floorColor: Option<string>,
    wallColor: Option<string>)

  /** `{ ...room, ...updates }`: every present field overrides, every other
      field is kept. */
  function ApplyPatch(room: Room, patch: RoomPatch): (r: Room)
    ensures r.id == (if patch.id.Some? then patch.id.value else room.id)
    ensures r.name == (if patch.name.Some? then patch.name.value else room.name)
    ensures r.vertices == (if patch.vertices.Some? then patch.vertices.value else room.vertices)
    ensures r.height == (if patch.height.Some? then patch.height.value else room.height)
    ensures r.floorColor == (if patch.floorColor.Some? then patch.floorColor else room.floorColor)
    ensures r.wallColor == (if patch.wallColor.Some? then patch.wallColor else room.wallColor)
  {
    Room(
      match patch.id case Some(v) => v case None => room.id,
      match patch.name case Some(v) => v case None => room.name,
      match patch.vertices case Some(v) => v case None => room.vertices,
      match patch.height case Some(v) => v case None => room.height,
      match patch.floorColor case Some(v) => Some(v) case None => room.floorColor,
      match patch.wallColor case Some(v) => Some(v) case None => room.wallColor)
  }

  /** The room list after `updateRoom(roomId, updates)`: every room with the
      id is patched, in place; every other room is kept as it is. */
  function UpdatedRooms(rooms: seq<Room>, roomId: string, patch: RoomPatch): (r: seq<Room>)
    ensures |r| == |rooms|
    ensures forall k :: 0 <= k < |rooms| ==>
      r[k] == (if rooms[k].id == roomId then ApplyPatch(rooms[k], patch) else rooms[k])
  {
    seq(|rooms|, k requires 0 <= k < |rooms| =>
      if rooms[k].id == roomId then ApplyPatch(rooms[k], patch) else rooms[k])
  }

  /** The room list after `deleteRoom(roomId)`: the rooms with another id,
      in their original order. */
  function WithoutRoom(rooms: seq<Room>, roomId: string): (r: seq<Room>)
    ensures |r| <= |rooms|
    ensures forall x :: x in r <==> x in rooms && x.id != roomId
  {
    if rooms == [] then []
    else
      var rest := WithoutRoom(rooms[1..], roomId);
      assert forall x :: x in rooms <==> x == rooms[0] || x in rooms[1..];
      if rooms[0].id == roomId then rest else [rooms[0]] + rest
  }

  /** The filter works segment by segment, which is what keeps the order. */
  lemma {:induction false} WithoutRoomAppend(a: seq<Room>, b: seq<Room>, roomId: string)
    ensures WithoutRoom(a + b, roomId) == WithoutRoom(a, roomId) + WithoutRoom(b, roomId)
  {
    if a != [] {
      assert (a + b)[1..] == a[1..] + b;
      WithoutRoomAppend(a[1..], b, roomId);
    } else {
      assert a + b == b;
    }
  }

  /** Deleting an id that no room has leaves the list as it is. */
  lemma {:induction false} WithoutAbsentRoom(rooms: seq<Room>, roomId: string)
    requires forall k :: 0 <= k < |rooms| ==> rooms[k].id != roomId
    ensures WithoutRoom(rooms, roomId) == rooms
  {
    if rooms != [] {
      WithoutAbsentRoom(rooms[1..], roomId);
    }
  }

  /** Updating an id that no room has leaves the list as it is. */
  lemma UpdateAbsentRoom(rooms: seq<Room>, roomId: string, patch: RoomPatch)
    requires forall k :: 0 <= k < |rooms| ==> rooms[k].id != roomId
    ensures UpdatedRooms(rooms, roomId, patch) == rooms
  {
  }

  /** Deleting twice is deleting once. */
  lemma WithoutRoomIdempotent(rooms: seq<Room>, roomId: string)
    ensures WithoutRoom(WithoutRoom(rooms, roomId), roomId) == WithoutRoom(rooms, roomId)
  {
    var once := WithoutRoom(rooms, roomId);
    forall k | 0 <= k < |once| ensures once[k].id != roomId {
      assert once[k] in once;
    }
    WithoutAbsentRoom(once, roomId);
  }

  /** Adding a room and deleting its id removes every room with that id,
      the added one included: the list is the old one without that id. */
  lemma AddThenDelete(rooms: seq<Room>, room: Room)
    ensures WithoutRoom(rooms + [room], room.id) == WithoutRoom(rooms, room.id)
  {
    WithoutRoomAppend(rooms, [room], room.id);
    assert WithoutRoom([room], room.id) == [];
  }

  /** The application state: the rooms and the selected room. */
  class RoomStore {
    var rooms: seq<Room>
    var activeRoomId: Option<string>

    /** The provider starts with no rooms and no selection. */
    constructor()
      ensures rooms == [] && activeRoomId == None
    {
      rooms := [];
      activeRoomId := None;
    }

    /** `addRoom`: appends the room, with no check for a duplicate id, and
        selects it. */
    method AddRoom(room: Room)
      modifies this
      ensures rooms == old(rooms) + [room]
      ensures activeRoomId == Some(room.id)
    {
      rooms := rooms + [room];
      activeRoomId := Some(room.id);
    }

    /** `updateRoom`: patches the rooms with the id; the selection is not
        touched. */
    method UpdateRoom(roomId: string, updates: RoomPatch)
      modifies this
      ensures rooms == UpdatedRooms(old(rooms), roomId, updates)
      ensures activeRoomId == old(activeRoomId)
    {
      rooms := UpdatedRooms(rooms, roomId, updates);
    }

    /** `deleteRoom`: drops the rooms with the id, and clears the selection
        exactly when it was that id. */
    method DeleteRoom(roomId: string)
      modifies this
      ensures rooms == WithoutRoom(old(rooms), roomId)
      ensures old(activeRoomId) == Some(roomId) ==> activeRoomId == None
      ensures old(activeRoomId) != Some(roomId) ==> activeRoomId == old(activeRoomId)
    {
      rooms := WithoutRoom(rooms, roomId);
      if activeRoomId == Some(roomId) {
        activeRoomId := None;
      }
    }

    /** `setActiveRoomId`: the selection is replaced; any value is taken. */
    method SetActiveRoomId(roomId: Option<string>)
      modifies this
      ensures activeRoomId == roomId && rooms == old(rooms)
    {
      activeRoomId := roomId;
    }
  }
}
