// components/RoomForm.tsx: the room form's state and handlers — filling the
// form from a room being edited, editing shape parameters, and the
// validated submission that adds or updates a room in the store.

module RoomForm {
  import opened Types
  import opened JsString
  import opened JsNumber
  import opened PresetShapes
  import opened AppContext

  /** The form's fields; numbers are kept as the typed text except the
      shape parameters, which are stored as numbers. */
  datatype RoomFormData = RoomFormData(
    name: string,
    shapeType: ShapeType,
    shapeParams: ShapeParams,
    height: string,
    floorColor: string,
    wallColor: string)

  const DefaultFloorColor: string := "#e0e0e0"
  const DefaultWallColor: string := "#ffffff"

  /** A blank form: rectangle, default parameters, 250 cm high. */
  const InitialFormData := RoomFormData("", Rectangle, DefaultShapeParams, "250", DefaultFloorColor, DefaultWallColor)

  const RoomLimitMessage: string := "部屋は1つまでしか追加できません"
  const NameMissingMessage: string := "部屋名を入力してください"
  const HeightInvalidMessage: string := "高さは正の数値を入力してください"

  // ---------------------------------------------------------------------
  // Edit-mode initialisation

  /** `v || fallback` for a number: zero falls back. */
  function OrDefault(v: real, fallback: real): (r: real)
    ensures v != 0.0 ==> r == v
    ensures v == 0.0 ==> r == fallback
  {
    if v == 0.0 then fallback else v
  }

  /** `s || fallback` for an optional text: a missing or empty text falls
      back. */
  function TextOrDefault(s: Option<string>, fallback: string): (r: string)
    ensures s.Some? && s.value != [] ==> r == s.value
    ensures s.None? || s.value == [] ==> r == fallback
  {
    if s.Some? && s.value != [] then s.value else fallback
  }

  /** The rectangle parameters read back from a room's outline: the first
      edge's x extent and the second edge's y extent, in centimetres, with
      300 x 200 standing in for a zero extent or an outline of fewer than
      four vertices. */
  function RecoverRectangle(vs: seq<Point2D>): (p: RectangleParams)
    ensures p.width > 0.0 && p.depth > 0.0
    ensures |vs| < 4 ==> p == RectangleParams(300.0, 200.0)
    ensures |vs| >= 4 && vs[1].x == vs[0].x ==> p.width == 300.0
    ensures |vs| >= 4 && vs[1].x != vs[0].x ==> p.width == Abs(vs[1].x - vs[0].x) * 100.0
    ensures |vs| >= 4 && vs[2].y == vs[1].y ==> p.depth == 200.0
    ensures |vs| >= 4 && vs[2].y != vs[1].y ==> p.depth == Abs(vs[2].y - vs[1].y) * 100.0
  {
    var width := if |vs| >= 4 then Abs(vs[1].x - vs[0].x) * 100.0 else 0.0;
    var depth := if |vs| >= 4 then Abs(vs[2].y - vs[1].y) * 100.0 else 0.0;
    RectangleParams(OrDefault(width, 300.0), OrDefault(depth, 200.0))
  }

  /** The form filled from the room being edited; `show` is JavaScript's
      number-to-text conversion. The shape is always shown as a
      rectangle. */
  function EditFormData(room: Room, show: real -> string): (d: RoomFormData)
    ensures d.shapeType == Rectangle && d.name == room.name
    ensures d.shapeParams.lShape == DefaultShapeParams.lShape && d.shapeParams.uShape == DefaultShapeParams.uShape
    ensures d.shapeParams.rectangle == RecoverRectangle(room.vertices)
    ensures d.height == show(room.height * 100.0)
    ensures d.floorColor == TextOrDefault(room.floorColor, DefaultFloorColor)
    ensures d.wallColor == TextOrDefault(room.wallColor, DefaultWallColor)
  {
    RoomFormData(
      room.name,
      Rectangle,
      DefaultShapeParams.(rectangle := RecoverRectangle(room.vertices)),
      show(room.height * 100.0),
      TextOrDefault(room.floorColor, DefaultFloorColor),
      TextOrDefault(room.wallColor, DefaultWallColor))
  }

  /** The effect run when the edited room changes. */
  function FormFor(editingRoom: Option<Room>, show: real -> string): RoomFormData {
    match editingRoom
    case Some(room) => EditFormData(room, show)
    case None => InitialFormData
  }

  // ---------------------------------------------------------------------
  // Shape parameters

  /** The parameter names the inputs pass to `handleShapeParamChange`. */
  datatype ParamName = Width | Depth | CutoutWidth | CutoutDepth | OpeningWidth | ArmDepth

  /** The value of a parameter of a shape, when that shape has it. */
  function ParamOf(params: ShapeParams, shapeType: ShapeType, name: ParamName): Option<real> {
    match (shapeType, name)
    case (Rectangle, Width) => Some(params.rectangle.width)
    case (Rectangle, Depth) => Some(params.rectangle.depth)
    case (LShape, Width) => Some(params.lShape.width)
    case (LShape, Depth) => Some(params.lShape.depth)
    case (LShape, CutoutWidth) => Some(params.lShape.cutoutWidth)
    case (LShape, CutoutDepth) => Some(params.lShape.cutoutDepth)
    case (UShape, Width) => Some(params.uShape.width)
    case (UShape, Depth) => Some(params.uShape.depth)
    case (UShape, OpeningWidth) => Some(params.uShape.openingWidth)
    case (UShape, ArmDepth) => Some(params.uShape.armDepth)
    case _ => None
  }

  /** `parseInt(value) || 0`: the integer the text starts with, and 0 for
      text that does not start with one. */
  function ParamValue(value: string): (v: real)
    ensures ParseInt(value).None? ==> v == 0.0
    ensures ParseInt(value).Some? ==> v == ParseInt(value).value as real
  {
    match ParseInt(value)
    case Some(n) => n as real
    case None => 0.0
  }

  /** The named parameter of the given shape set to `v`. A name the shape
      does not have only adds a property nobody reads, so the parameters
      stay as they are. */
  function SetShapeParam(params: ShapeParams, shapeType: ShapeType, name: ParamName, v: real): (r: ShapeParams)
    ensures shapeType != Rectangle ==> r.rectangle == params.rectangle
    ensures shapeType != LShape ==> r.lShape == params.lShape
    ensures shapeType != UShape ==> r.uShape == params.uShape
  {
    match (shapeType, name)
    case (Rectangle, Width) => params.(rectangle := params.rectangle.(width := v))
    case (Rectangle, Depth) => params.(rectangle := params.rectangle.(depth := v))
    case (LShape, Width) => params.(lShape := params.lShape.(width := v))
    case (LShape, Depth) => params.(lShape := params.lShape.(depth := v))
    case (LShape, CutoutWidth) => params.(lShape := params.lShape.(cutoutWidth := v))
    case (LShape, CutoutDepth) => params.(lShape := params.lShape.(cutoutDepth := v))
    case (UShape, Width) => params.(uShape := params.uShape.(width := v))
    case (UShape, Depth) => params.(uShape := params.uShape.(depth := v))
    case (UShape, OpeningWidth) => params.(uShape := params.uShape.(openingWidth := v))
    case (UShape, ArmDepth) => params.(uShape := params.uShape.(armDepth := v))
    case _ => params
  }

  /** Setting a parameter changes that parameter of that shape to the new
      value and no other parameter of any shape. */
  lemma SetThenGet(params: ShapeParams, shapeType: ShapeType, name: ParamName, v: real,
                   otherType: ShapeType, otherName: ParamName)
    ensures ParamOf(params, shapeType, name).Some? ==>
      ParamOf(SetShapeParam(params, shapeType, name, v), shapeType, name) == Some(v)
    ensures (otherType, otherName) != (shapeType, name) ==>
      ParamOf(SetShapeParam(params, shapeType, name, v), otherType, otherName) == ParamOf(params, otherType, otherName)
    ensures ParamOf(params, shapeType, name).None? ==> SetShapeParam(params, shapeType, name, v) == params
  {
  }

  // ---------------------------------------------------------------------
  // Submission

  /** What a submission does: report an error, add a room, or update the
      edited room. */
  datatype RoomOutcome = Rejected(message: string) | Added(room: Room) | Updated(roomId: string, patch: RoomPatch)

  /** `!isNaN(h) && h > 0` for a parsed number. */
  predicate PositiveNumber(h: Option<real>) {
    h.Some? && h.value > 0.0
  }

  /** `handleSubmit`'s decision. The checks run in order — room limit (only
      when adding), non-blank name, positive height — and the first that
      fails decides the message. A valid add creates a room with the fresh
      id, the trimmed name, the outline of the selected shape and the
      height in metres; a valid edit patches the edited room with the same
      fields. */
  function SubmitRoom(data: RoomFormData, editingRoom: Option<Room>, roomCount: nat, newId: string): (r: RoomOutcome)
    ensures r == Rejected(RoomLimitMessage) <==> editingRoom.None? && roomCount >= 1
    ensures r == Rejected(NameMissingMessage) <==>
      !(editingRoom.None? && roomCount >= 1) && AllSpace(data.name)
    ensures r == Rejected(HeightInvalidMessage) <==>
      !(editingRoom.None? && roomCount >= 1) && !AllSpace(data.name) && !PositiveNumber(ParseFloat(data.height))
    ensures r.Added? <==>
      editingRoom.None? && roomCount == 0 && !AllSpace(data.name) && PositiveNumber(ParseFloat(data.height))
    ensures r.Updated? <==>
      editingRoom.Some? && !AllSpace(data.name) && PositiveNumber(ParseFloat(data.height))
    ensures r.Added? ==>
      && r.room.id == newId && r.room.name == Trim(data.name) && r.room.name != []
      && r.room.vertices == GenerateVertices(data.shapeType, data.shapeParams)
      && r.room.height > 0.0 && r.room.height * 100.0 == ParseFloat(data.height).value
      && r.room.floorColor == Some(data.floorColor) && r.room.wallColor == Some(data.wallColor)
    ensures r.Updated? ==>
      && r.roomId == editingRoom.value.id && r.patch.id.None?
      && r.patch.name == Some(Trim(data.name)) && r.patch.name.value != []
      && r.patch.vertices == Some(GenerateVertices(data.shapeType, data.shapeParams))
      && r.patch.height.Some? && r.patch.height.value > 0.0
      && r.patch.height.value * 100.0 == ParseFloat(data.height).value
      && r.patch.floorColor == Some(data.floorColor) && r.patch.wallColor == Some(data.wallColor)
  {
    if editingRoom.None? && roomCount >= 1 then Rejected(RoomLimitMessage)
    else if Trim(data.name) == [] then Rejected(NameMissingMessage)
    else
      var height := ParseFloat(data.height);
      if height.None? || height.value <= 0.0 then Rejected(HeightInvalidMessage)
      else
        var vertices := GenerateVertices(data.shapeType, data.shapeParams);
        match editingRoom
        case Some(room) =>
          Updated(room.id, RoomPatch(None, Some(Trim(data.name)), Some(vertices), Some(height.value / 100.0),
                                     Some(data.floorColor), Some(data.wallColor)))
        case None =>
          Added(Room(newId, Trim(data.name), vertices, height.value / 100.0,
                     Some(data.floorColor), Some(data.wallColor)))
  }

  // ---------------------------------------------------------------------
  // Editing generated rooms

  /** A generated rectangle reads back as its own parameters. */
  lemma EditRecoversRectangle(room: Room, params: RectangleParams)
    requires params.width > 0.0 && params.depth > 0.0
    requires room.vertices == GenerateRectangle(params)
    ensures RecoverRectangle(room.vertices) == params
  {
    var vs := room.vertices;
    assert Abs(vs[1].x - vs[0].x) == params.width / 100.0;
    assert Abs(vs[2].y - vs[1].y) == params.depth / 100.0;
  }

  /** Opening a generated rectangle room for editing and saving it without
      changes writes back the same outline and height (given that the
      number-to-text conversion of the height reads back exactly). */
  lemma SaveUnchangedRectangle(room: Room, params: RectangleParams, show: real -> string, roomCount: nat, newId: string)
    requires params.width > 0.0 && params.depth > 0.0
    requires room.vertices == GenerateRectangle(params)
    requires room.height > 0.0 && ParseFloat(show(room.height * 100.0)) == Some(room.height * 100.0)
    requires !AllSpace(room.name)
    ensures var r := SubmitRoom(EditFormData(room, show), Some(room), roomCount, newId);
      r.Updated? && r.roomId == room.id
      && r.patch.vertices == Some(room.vertices) && r.patch.height == Some(room.height)
      && r.patch.name == Some(Trim(room.name))
  {
    EditRecoversRectangle(room, params);
    var data := EditFormData(room, show);
    assert GenerateVertices(data.shapeType, data.shapeParams) == room.vertices by {
      assert data.shapeParams.rectangle == params;
    }
    assert PositiveNumber(ParseFloat(data.height));
    var r := SubmitRoom(data, Some(room), roomCount, newId);
    assert r.patch.height.value == room.height;
  }

  /** For a height of whole centimetres whose text is the decimal digits
      of that number, the read-back holds, so saving unchanged writes back
      the same outline and height. */
  lemma SaveUnchangedWholeCentimetres(room: Room, params: RectangleParams, n: nat, show: real -> string,
                                      roomCount: nat, newId: string)
    requires params.width > 0.0 && params.depth > 0.0
    requires room.vertices == GenerateRectangle(params)
    requires n > 0 && room.height * 100.0 == n as real && show(room.height * 100.0) == ShowNat(n)
    requires !AllSpace(room.name)
    ensures var r := SubmitRoom(EditFormData(room, show), Some(room), roomCount, newId);
      r.Updated? && r.roomId == room.id
      && r.patch.vertices == Some(room.vertices) && r.patch.height == Some(room.height)
  {
    ToNumberShowNat(n);
    SaveUnchangedRectangle(room, params, show, roomCount, newId);
  }

  /** An L room opens as a rectangle: its full width and the depth of its
      first side wall, `depth - cutoutDepth`. Saving it replaces the L by
      that rectangle. */
  lemma EditFlattensLShape(room: Room, params: LShapeParams)
    requires ProperLShape(params) && room.vertices == GenerateLShape(params)
    ensures RecoverRectangle(room.vertices) == RectangleParams(params.width, params.depth - params.cutoutDepth)
  {
    var vs := room.vertices;
    assert Abs(vs[1].x - vs[0].x) == params.width / 100.0;
    assert Abs(vs[2].y - vs[1].y) == (params.depth - params.cutoutDepth) / 100.0;
  }

  /** A U room opens as a rectangle the size of one arm: width
      `(width - openingWidth) / 2` and depth `depth - armDepth`. */
  lemma EditKeepsOneUArm(room: Room, params: UShapeParams)
    requires ProperUShape(params) && room.vertices == GenerateUShape(params)
    ensures RecoverRectangle(room.vertices)
      == RectangleParams((params.width - params.openingWidth) / 2.0, params.depth - params.armDepth)
  {
    var vs := room.vertices;
    assert Abs(vs[1].x - vs[0].x) == (params.width - params.openingWidth) / 200.0;
    assert Abs(vs[2].y - vs[1].y) == (params.depth - params.armDepth) / 100.0;
  }

  /** The form component: the shared store, the room being edited (if
      any), the form fields and the error line. */
  class RoomFormState {
    const store: RoomStore
    var editingRoom: Option<Room>
    var formData: RoomFormData
    var error: string

    /** Mounting runs the edit-mode effect once. */
    constructor(store: RoomStore, editingRoom: Option<Room>, show: real -> string)
      ensures this.store == store && this.editingRoom == editingRoom
      ensures formData == FormFor(editingRoom, show) && error == ""
    {
      this.store := store;
      this.editingRoom := editingRoom;
      formData := FormFor(editingRoom, show);
      error := "";
    }

    /** A new `editingRoom` prop re-runs the effect. */
    method SetEditingRoom(room: Option<Room>, show: real -> string)
      modifies this
      ensures editingRoom == room && formData == FormFor(room, show) && error == old(error)
    {
      editingRoom := room;
      formData := FormFor(room, show);
    }

    /** `handleShapeParamChange`: only the named parameter of the current
        shape changes. */
    method HandleShapeParamChange(name: ParamName, value: string)
      modifies this
      ensures formData == old(formData).(shapeParams :=
        SetShapeParam(old(formData).shapeParams, old(formData).shapeType, name, ParamValue(value)))
      ensures editingRoom == old(editingRoom) && error == old(error)
    {
      var numValue := ParamValue(value);
      formData := formData.(shapeParams := SetShapeParam(formData.shapeParams, formData.shapeType, name, numValue));
    }

    /** The shape selector. */
    method HandleShapeTypeChange(shapeType: ShapeType)
      modifies this
      ensures formData == old(formData).(shapeType := shapeType)
      ensures editingRoom == old(editingRoom) && error == ""
    {
      formData := formData.(shapeType := shapeType);
      error := "";
    }

    /** `handleSubmit`: a rejection only sets the error; an add appends to
        the store, selects the room and resets the form; an edit patches
        the store and keeps the form. */
    method HandleSubmit(newId: string)
      modifies this, store
      ensures editingRoom == old(editingRoom)
      ensures var outcome := SubmitRoom(old(formData), old(editingRoom), old(|store.rooms|), newId);
        match outcome
        case Rejected(message) =>
          error == message && formData == old(formData)
          && store.rooms == old(store.rooms) && store.activeRoomId == old(store.activeRoomId)
        case Added(room) =>
          error == "" && formData == InitialFormData
          && store.rooms == old(store.rooms) + [room] && store.activeRoomId == Some(room.id)
        case Updated(roomId, patch) =>
          error == "" && formData == old(formData)
          && store.rooms == UpdatedRooms(old(store.rooms), roomId, patch)
          && store.activeRoomId == old(store.activeRoomId)
    {
      var outcome := SubmitRoom(formData, editingRoom, |store.rooms|, newId);
      match outcome {
        case Rejected(message) =>
          error := message;
        case Added(room) =>
          store.AddRoom(room);
          formData := InitialFormData;
          error := "";
        case Updated(roomId, patch) =>
          store.UpdateRoom(roomId, patch);
          error := "";
      }
    }
  }
}
