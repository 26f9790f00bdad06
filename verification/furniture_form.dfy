// components/FurnitureForm.tsx: the furniture form's state, the presets,
// and the validated submission that hands a new piece to the store.

module FurnitureForm {
  import opened Types
  import opened JsString
  import opened JsNumber
  import opened FurnitureUtils
  import opened AppContext

  /** The form's fields, as typed; sizes in centimetres. */
  datatype FurnitureFormData = FurnitureFormData(
    name: string,
    width: string,
    height: string,
    depth: string,
    color: string)

  const Brown: string := "#8B4513"

  /** A blank form: 80 x 80 x 40 cm, brown. */
  const InitialFormData := FurnitureFormData("", "80", "80", "40", Brown)

  const NameMissingMessage: string := "家具名を入力してください"
  const NoRoomMessage: string := "先に部屋を選択してください"
  const WidthInvalidMessage: string := "幅は正の数値を入力してください"
  const HeightInvalidMessage: string := "高さは正の数値を入力してください"
  const DepthInvalidMessage: string := "奥行きは正の数値を入力してください"

  /** A preset button's values. */
  datatype Preset = Preset(name: string, width: string, height: string, depth: string)

  const Presets: seq<Preset> := [
    Preset("テーブル", "120", "75", "80"),
    Preset("椅子", "45", "85", "45"),
    Preset("ソファ", "180", "80", "90"),
    Preset("ベッド", "200", "60", "100"),
    Preset("本棚", "80", "180", "30"),
    Preset("デスク", "120", "75", "60")
  ]

  /** `handlePreset`: the preset's name and sizes over the form; the colour
      is kept. */
  function ApplyPreset(data: FurnitureFormData, preset: Preset): (d: FurnitureFormData)
    ensures d.name == preset.name && d.width == preset.width && d.height == preset.height
    ensures d.depth == preset.depth && d.color == data.color
  {
    data.(name := preset.name, width := preset.width, height := preset.height, depth := preset.depth)
  }

  /** What a submission does: report an error or add one piece. */
  datatype FurnitureOutcome = Rejected(message: string) | Added(item: Furniture)

  /** `!isNaN(v) && v > 0` for a parsed number. */
  predicate PositiveNumber(v: Option<real>) {
    v.Some? && v.value > 0.0
  }

  /** `!activeRoomId`: no selection, or the empty id. */
  predicate NoActiveRoom(activeRoomId: Option<string>) {
    activeRoomId.None? || activeRoomId.value == []
  }

  /** `handleSubmit`'s decision. The checks run in order — non-blank name,
      a selected room, then positive width, height and depth — and the
      first that fails decides the message. A valid form gives one piece
      with the fresh id, the trimmed name, the parsed sizes, the default
      pose, the form's colour and the selected room. */
  function SubmitFurniture(data: FurnitureFormData, activeRoomId: Option<string>, newId: string): (r: FurnitureOutcome)
    ensures r == Rejected(NameMissingMessage) <==> AllSpace(data.name)
    ensures r == Rejected(NoRoomMessage) <==> !AllSpace(data.name) && NoActiveRoom(activeRoomId)
    ensures r == Rejected(WidthInvalidMessage) <==>
      !AllSpace(data.name) && !NoActiveRoom(activeRoomId) && !PositiveNumber(ParseFloat(data.width))
    ensures r == Rejected(HeightInvalidMessage) <==>
      !AllSpace(data.name) && !NoActiveRoom(activeRoomId) && PositiveNumber(ParseFloat(data.width))
      && !PositiveNumber(ParseFloat(data.height))
    ensures r == Rejected(DepthInvalidMessage) <==>
      !AllSpace(data.name) && !NoActiveRoom(activeRoomId) && PositiveNumber(ParseFloat(data.width))
      && PositiveNumber(ParseFloat(data.height)) && !PositiveNumber(ParseFloat(data.depth))
    ensures r.Added? <==>
      !AllSpace(data.name) && !NoActiveRoom(activeRoomId) && PositiveNumber(ParseFloat(data.width))
      && PositiveNumber(ParseFloat(data.height)) && PositiveNumber(ParseFloat(data.depth))
    ensures r.Added? ==>
      && r.item.id == newId && r.item.name == Trim(data.name) && r.item.name != []
      && Some(r.item.size.width) == ParseFloat(data.width) && r.item.size.width > 0.0
      && Some(r.item.size.height) == ParseFloat(data.height) && r.item.size.height > 0.0
      && Some(r.item.size.depth) == ParseFloat(data.depth) && r.item.size.depth > 0.0
      && r.item.position == Point3D(0.0, 0.0, 0.0) && r.item.rotation == FurnitureRotation(0.0, 0.0, 0.0)
      && r.item.color == data.color && r.item.roomId == activeRoomId
  {
    if Trim(data.name) == [] then Rejected(NameMissingMessage)
    else if NoActiveRoom(activeRoomId) then Rejected(NoRoomMessage)
    else
      var width := ParseFloat(data.width);
      var height := ParseFloat(data.height);
      var depth := ParseFloat(data.depth);
      if width.None? || width.value <= 0.0 then Rejected(WidthInvalidMessage)
      else if height.None? || height.value <= 0.0 then Rejected(HeightInvalidMessage)
      else if depth.None? || depth.value <= 0.0 then Rejected(DepthInvalidMessage)
      else
        Added(Furniture(newId, Trim(data.name), GetDefaultPosition(),
                        FurnitureSize(width.value, height.value, depth.value),
                        GetDefaultRotation(), data.color, activeRoomId))
  }

  /** A size field that reads as a positive whole number: digits only,
      the first of them not zero. */
  predicate PositiveDigits(ds: string) {
    ds != [] && AllDigits(ds) && ds[0] != '0'
  }

  /** A preset's name neither starts nor ends with white space and its sizes are positive whole
      numbers. */
  predicate ValidPreset(p: Preset) {
    p.name != [] && !IsSpace(p.name[0]) && !IsSpace(p.name[|p.name| - 1])
    && PositiveDigits(p.width) && PositiveDigits(p.height) && PositiveDigits(p.depth)
  }

  lemma PresetsValid()
    ensures forall k :: 0 <= k < |Presets| ==> ValidPreset(Presets[k])
  {
    forall k | 0 <= k < |Presets|
      ensures ValidPreset(Presets[k])
    {
      if k == 0 {
        assert Presets[0] == Preset("テーブル", "120", "75", "80");
      } else if k == 1 {
        assert Presets[1] == Preset("椅子", "45", "85", "45");
      } else if k == 2 {
        assert Presets[2] == Preset("ソファ", "180", "80", "90");
      } else if k == 3 {
        assert Presets[3] == Preset("ベッド", "200", "60", "100");
      } else if k == 4 {
        assert Presets[4] == Preset("本棚", "80", "180", "30");
      } else {
        assert Presets[5] == Preset("デスク", "120", "75", "60");
      }
    }
  }

  /** A digit string whose first digit is not zero has a positive value. */
  lemma {:induction false} PositiveDigitsValue(ds: string)
    requires PositiveDigits(ds)
    ensures NatValue(ds) > 0
  {
    if |ds| > 1 {
      PositiveDigitsValue(ds[..|ds| - 1]);
    }
  }

  /** With a selected room, applying a well-formed preset and submitting
      adds a piece with the preset's name and its sizes read as numbers. */
  lemma ValidPresetSubmits(data: FurnitureFormData, p: Preset, activeRoomId: Option<string>, newId: string)
    requires ValidPreset(p) && !NoActiveRoom(activeRoomId)
    ensures var r := SubmitFurniture(ApplyPreset(data, p), activeRoomId, newId);
      r.Added? && r.item.name == p.name
      && r.item.size == FurnitureSize(NatValue(p.width) as real, NatValue(p.height) as real,
                                      NatValue(p.depth) as real)
  {
    var d := ApplyPreset(data, p);
    var width, height, depth := NatValue(p.width) as real, NatValue(p.height) as real, NatValue(p.depth) as real;
    assert Trim(d.name) == p.name && !AllSpace(d.name) by {
      PresetNameTrimmed(p.name);
    }
    assert ParseFloat(d.width) == Some(width) && width > 0.0 by {
      PositiveDigitsRead(d.width);
    }
    assert ParseFloat(d.height) == Some(height) && height > 0.0 by {
      PositiveDigitsRead(d.height);
    }
    assert ParseFloat(d.depth) == Some(depth) && depth > 0.0 by {
      PositiveDigitsRead(d.depth);
    }
    SubmitAccepts(d, activeRoomId, newId, FurnitureSize(width, height, depth));
  }

  /** A form with a non-blank name, a selected room and three positive
      sizes is accepted as exactly that piece. */
  lemma SubmitAccepts(data: FurnitureFormData, activeRoomId: Option<string>, newId: string, size: FurnitureSize)
    requires !AllSpace(data.name) && !NoActiveRoom(activeRoomId)
    requires ParseFloat(data.width) == Some(size.width) && size.width > 0.0
    requires ParseFloat(data.height) == Some(size.height) && size.height > 0.0
    requires ParseFloat(data.depth) == Some(size.depth) && size.depth > 0.0
    ensures SubmitFurniture(data, activeRoomId, newId)
      == Added(Furniture(newId, Trim(data.name), GetDefaultPosition(), size,
                         GetDefaultRotation(), data.color, activeRoomId))
  {
  }

  /** `parseFloat` reads a positive digit string as its positive value. */
  lemma PositiveDigitsRead(ds: string)
    requires PositiveDigits(ds)
    ensures ParseFloat(ds) == Some(NatValue(ds) as real) && NatValue(ds) > 0
  {
    ParseDigits(ds);
    PositiveDigitsValue(ds);
  }

  /** Every preset button, with a selected room, submits successfully. */
  lemma PresetAlwaysSubmits(data: FurnitureFormData, k: nat, activeRoomId: Option<string>, newId: string)
    requires k < |Presets| && !NoActiveRoom(activeRoomId)
    ensures SubmitFurniture(ApplyPreset(data, Presets[k]), activeRoomId, newId).Added?
  {
    PresetsValid();
    ValidPresetSubmits(data, Presets[k], activeRoomId, newId);
  }

  /** A name with no white space at either end is its own trim. */
  lemma PresetNameTrimmed(name: string)
    requires name != [] && !IsSpace(name[0]) && !IsSpace(name[|name| - 1])
    ensures Trim(name) == name
  {
    assert TrimStart(name) == name;
    assert TrimEnd(name) == name;
  }

  /** The furniture form: the shared store (for the selected room), the
      fields, the error line, and the pieces handed to `addFurniture` so
      far. */
  class FurnitureFormState {
    const store: RoomStore
    var formData: FurnitureFormData
    var error: string
    var submitted: seq<Furniture>

    constructor(store: RoomStore)
      ensures this.store == store && formData == InitialFormData && error == "" && submitted == []
    {
      this.store := store;
      formData := InitialFormData;
      error := "";
      submitted := [];
    }

    /** `handlePreset`. */
    method HandlePreset(preset: Preset)
      modifies this
      ensures formData == ApplyPreset(old(formData), preset)
      ensures error == old(error) && submitted == old(submitted)
    {
      formData := formData.(name := preset.name, width := preset.width, height := preset.height, depth := preset.depth);
    }

    /** `handleSubmit`: a rejection only sets the error; a valid form hands
        exactly one piece on and resets the form. */
    method HandleSubmit(newId: string)
      modifies this
      ensures match SubmitFurniture(old(formData), old(store.activeRoomId), newId)
        case Rejected(message) =>
          error == message && formData == old(formData) && submitted == old(submitted)
        case Added(item) =>
          error == "" && formData == InitialFormData && submitted == old(submitted) + [item]
    {
      var outcome := SubmitFurniture(formData, store.activeRoomId, newId);
      match outcome {
        case Rejected(message) =>
          error := message;
        case Added(item) =>
          submitted := submitted + [item];
          error := "";
          formData := InitialFormData;
      }
    }
  }
}
