# house-maker room and furniture core, in Dafny

This project models the logic of the house-maker layout editor. The editor
lets a user describe a room and place furniture in it. The model covers:

- the preset room outlines (rectangle, L, U), generated from sizes in
  centimetres as vertex cycles in metres;
- reading a typed vertex list (`"0,0 5,0 5,3 0,3"`) and the check that a
  vertex cycle is an orthogonal polygon;
- the room's bounding box, the crossing-number point-in-polygon test, and
  the constraint that keeps a furniture footprint in its room;
- the furniture box predicates (unit conversion, default pose, in-bounds
  test, collision test);
- the project record helpers (create, summarise, replace contents, convert
  legacy coordinates);
- the room store shared by the editor (rooms plus the selected room);
- the decision logic of the room form and the furniture form.

One Dafny module is written per source file:

- `PresetShapes`
- `RoomUtils`
- `RoomBounds`
- `FurnitureUtils`
- `ProjectManager`
- `AppContext`
- `RoomForm`
- `FurnitureForm`

Supporting modules:

- `Types` holds the records of `types/*.ts`.
- `JsString` models the JavaScript string operations the core relies on:
  `trim`, `split(/\s+/)`, `split(',')`.
- `JsNumber` models the number readers it relies on: `Number`,
  `parseFloat`, `parseInt`.
- `ShapeGeometry` connects the files. The generated outlines pass the
  orthogonality check. A generated rectangle contains exactly the half-open
  box `[0, w) x [0, d)`. The placement constraint keeps an interior position
  and nudges one flush against a far wall.

Coordinates are `real`, so `/ 100`, `/ 2` and the 0.1 m nudge are exact.

Code that loops over state is written as imperative Dafny, each piece proved
equal to a specification function:

- `validateOrthogonalPolygon`, `calculateRoomBounds` and `isPointInPolygon`
  are methods with loops.
- The room store is a class whose methods replace `rooms` and
  `activeRoomId`.
- The two forms are classes whose `HandleSubmit` methods apply a pure
  decision function (`SubmitRoom`, `SubmitFurniture`) to the form state.

Ids, timestamps and JavaScript's number-to-text conversion are parameters.

## Model

| member | source | states |
|---|---|---|
| Types.Next | utils/roomUtils.ts:40 | the index after `i` around a cycle of `n` stays below `n` (`(i + 1) % n`) |
| Types.Prev | utils/roomUtils.ts:38 | the index before `i` stays below `n` and `Next` of it is `i` again (`(i - 1 + n) % n`) |
| Types.Abs | utils/furnitureUtils.ts:76-78 | `Math.abs`: non-negative, and `v` or `-v` |
| JsString.LeadingSpaces | utils/roomUtils.ts:10 | the length of the white-space prefix: all spaces, followed by a non-space or the end |
| JsString.TrailingSpaces | utils/roomUtils.ts:10 | the length of the white-space suffix, symmetric to `LeadingSpaces` |
| JsString.TrimStart | components/FurnitureForm.tsx:41-43 | a suffix of the input whose dropped prefix is all white space and which does not start with white space (the skip `parseFloat` does first) |
| JsString.TrimEnd | utils/roomUtils.ts:10 | a prefix of the input whose dropped suffix is all white space and which does not end with white space |
| JsString.Trim | components/FurnitureForm.tsx:31 | `trim()`: no longer than the input, no white space at either end, and empty exactly when the input is all white space |
| JsString.TrimIsInfix | utils/projectManager.ts:19 | the trimmed text is the input's characters from the end of the leading white space on, with only white space after it |
| JsString.TrimmedEmpty | components/RoomForm.tsx:133 | trimming leaves nothing only when the input is all white space |
| JsString.LeadingRun | utils/roomUtils.ts:11 | the first word's length: no white space inside, white space or the end after it |
| JsString.Words | utils/roomUtils.ts:11 | the white-space separated words, none empty and none containing white space; `WordsSpaceSplit`, `WordsOfWord` and `WordsOfSpace` fix them for every text |
| JsString.SplitWhitespace | utils/roomUtils.ts:9-11 | `trim().split(/\s+/)`: `[""]` for blank input, otherwise non-empty tokens without white space, which `SplitWhitespaceIsWords` shows are the input's words |
| JsString.SplitOn | utils/roomUtils.ts:13 | `split(',')`: at least one field, none containing the separator |
| JsString.JoinSplitOn | utils/roomUtils.ts:13 | joining the fields of a split with the separator gives the text back |
| JsString.SplitOnJoin | utils/roomUtils.ts:13 | splitting fields that were joined with a separator they lack gives those fields back |
| JsString.LeadingRunOfWord | utils/roomUtils.ts:11 | a word followed by white space or the end is read as exactly that word |
| JsString.WordsJoin | utils/roomUtils.ts:11 | words joined by single spaces are split back into the same words |
| JsString.JoinStartsWithFirst | utils/roomUtils.ts:10 | a space-joined list starts with its first word's first character |
| JsString.JoinEndsWithLast | utils/roomUtils.ts:10 | a space-joined list ends with its last word's last character |
| JsString.SplitWhitespaceJoin | utils/roomUtils.ts:9-11 | `trim().split(/\s+/)` of words joined by single spaces gives the words back |
| JsString.WordsSpaceSplit | utils/roomUtils.ts:11 | a white-space character splits the words: those before it followed by those after it, for any run of white space |
| JsString.WordsOfWord | utils/roomUtils.ts:11 | a non-empty text without white space is a single word |
| JsString.WordsOfSpace | utils/roomUtils.ts:11 | white space alone has no words |
| JsString.WordsFramed | utils/roomUtils.ts:9-11 | white space before or after a text leaves its words unchanged |
| JsString.TrimFrame | utils/roomUtils.ts:10 | the input is its trimmed text framed by white space on both sides |
| JsString.SplitWhitespaceIsWords | utils/roomUtils.ts:9-11 | for text with a non-space character, `trim().split(/\s+/)` gives exactly its words, whatever white space separates or surrounds them |
| JsNumber.DigitValue | components/RoomForm.tsx:97 | a decimal digit's value is below ten |
| JsNumber.DigitRun | components/RoomForm.tsx:97 | the leading digit run: all digits, followed by a non-digit or the end |
| JsNumber.ScanUnsigned | components/RoomForm.tsx:138 | an unsigned decimal read consumes at least one character and gives a non-negative value |
| JsNumber.FracNonNegative | components/RoomForm.tsx:138 | the digits after a decimal point add a non-negative amount |
| JsNumber.ScanNumber | components/RoomForm.tsx:138 | a signed decimal read consumes at least one character of the text |
| JsNumber.ShowNat | components/RoomForm.tsx:81 | a natural number's decimal text is a non-empty digit string |
| JsNumber.NatValueShowNat | components/RoomForm.tsx:81 | reading the decimal text of `n` as digits gives `n` back |
| JsNumber.ParseDigits | components/FurnitureForm.tsx:41-43 | `Number`, `parseFloat` and `parseInt` all read a plain digit string as its value |
| JsNumber.DigitRunAll | components/RoomForm.tsx:97 | the digit run of a digit string is all of it |
| JsNumber.ToNumberShowNat | components/RoomForm.tsx:81 | `Number` and `parseFloat` read the decimal text of `n` back as `n` |
| JsNumber.TrailingText | components/RoomForm.tsx:138 | `parseFloat("12px")` is 12 while `Number("12px")` is NaN: `parseFloat` ignores trailing text, `Number` does not |
| PresetShapes.GenerateRectangle | utils/presetShapes.ts:34-44 | four vertices from the origin, every edge axis-aligned, each coordinate 0 or the size in metres |
| PresetShapes.GenerateLShape | utils/presetShapes.ts:49-63 | six vertices from the origin, axis-aligned edges; with the cutout inside the box all vertices lie in `[0, w] x [0, d]`; a proper cutout removes the far corner `(w, d)` |
| PresetShapes.GenerateUShape | utils/presetShapes.ts:68-86 | eight vertices from the origin, axis-aligned edges, both arms `(w - ow) / 2` wide and the opening `ow` wide |
| PresetShapes.UShapeMirror | utils/presetShapes.ts:74-85 | mirroring any U vertex in `x -> w - x` gives another U vertex |
| PresetShapes.GenerateVertices | components/RoomForm.tsx:110-122 | the selected generator's outline: 4, 6 or 8 vertices, from the origin, axis-aligned |
| PresetShapes.DefaultsAreProper | utils/presetShapes.ts:91-108 | the default rectangle has positive size; the default L and U have proper cutouts |
| RoomUtils.Collect | utils/roomUtils.ts:12-18 | `map` with a throw on NaN: every point in order when every token reads, nothing otherwise |
| RoomUtils.ParseAll | utils/roomUtils.ts:12-18 | a result exactly when every token reads as a point, and then one point per token, in order |
| RoomUtils.ParseVertices | utils/roomUtils.ts:7-29 | the result is empty or has at least three points |
| RoomUtils.ParseVerticesTokens | utils/roomUtils.ts:9-28 | a non-empty result exactly when there are at least three tokens and all read; then one point per token, in input order |
| RoomUtils.BadTokenEmptiesResult | utils/roomUtils.ts:14-16 | one token with a non-numeric coordinate empties the whole result |
| RoomUtils.ToNumberDigit | utils/roomUtils.ts:13 | `Number` of a single digit is its value |
| RoomUtils.ParseDigitPair | utils/roomUtils.ts:13-17 | a token `a,b` of two digits reads as the point `(a, b)` |
| RoomUtils.DigitPairsRead | utils/roomUtils.ts:4-5 | at least three single-digit `x,y` tokens joined by spaces (the doc example among them) read back as their points, in order |
| RoomUtils.PointsOfTokens | utils/roomUtils.ts:21-25 | at least three tokens that each read as the matching point give exactly those points |
| RoomUtils.PairTokens | utils/roomUtils.ts:4-5 | one `x,y` token per pair of digits, in order |
| RoomUtils.NoCommaNoPoint | utils/roomUtils.ts:13-14 | a token without a comma has no `y` (`undefined`, NaN) and does not read |
| RoomUtils.EmptyYIsZero | utils/roomUtils.ts:13-14 | a token `x,` reads `y` as `Number("")`, which is 0 |
| RoomUtils.ModCycle | utils/roomUtils.ts:38-40 | `(i + 1) % n` and `(i - 1 + n) % n` are `Next` and `Prev` |
| RoomUtils.ValidateOrthogonalPolygon | utils/roomUtils.ts:34-59 | the loop's verdict is exactly "every corner passes the test"; fewer than three vertices is false |
| RoomUtils.CornerOkIffEdges | utils/roomUtils.ts:43-55 | a corner passes exactly when both its edges are each horizontal or vertical but not both, and of different orientation |
| RoomUtils.OrthogonalIffAlternating | utils/roomUtils.ts:37-58 | a cycle passes exactly when every edge is horizontal or vertical (not both) and orientations alternate around the cycle |
| RoomUtils.AlternationParity | utils/roomUtils.ts:37-58 | on an alternating cycle, edge `i` has the orientation of edge 0 exactly when `i` is even |
| RoomUtils.OrthogonalHasEvenLength | utils/roomUtils.ts:37-58 | an accepted cycle has an even number of vertices, so every triangle and odd cycle is rejected |
| RoomUtils.RepeatedVertexRejected | utils/roomUtils.ts:53-55 | a vertex repeated next to itself (a zero-length edge) is rejected |
| RoomUtils.DiagonalEdgeRejected | utils/roomUtils.ts:49-50 | a diagonal edge is rejected |
| RoomUtils.OrthogonalIsAxisAligned | utils/roomUtils.ts:43-50 | every edge of an accepted cycle, the closing one included, is horizontal or vertical |
| RoomUtils.Rotate | utils/roomUtils.ts:37-40 | rotating the list keeps its length |
| RoomUtils.RotateOneStep | utils/roomUtils.ts:37-40 | starting the list one vertex later does not change the verdict |
| RoomUtils.OrthogonalRotationInvariant | utils/roomUtils.ts:37-40 | starting the list at any vertex does not change the verdict |
| RoomBounds.Min | utils/roomBounds.ts:25 | `Math.min`: below both, and one of them |
| RoomBounds.Max | utils/roomBounds.ts:26 | `Math.max`: above both, and one of them |
| RoomBounds.MinOf | utils/roomBounds.ts:25-27 | the folded minimum is at most every vertex's coordinate |
| RoomBounds.MaxOf | utils/roomBounds.ts:26-28 | the folded maximum is at least every vertex's coordinate |
| RoomBounds.Attained | utils/roomBounds.ts:19-29 | the minimum and the maximum are each some vertex's coordinate |
| RoomBounds.BoundsOf | utils/roomBounds.ts:14-38 | all zeros without vertices; otherwise a box holding every vertex, `y` reported as `z` |
| RoomBounds.BoundsTight | utils/roomBounds.ts:19-37 | each side of the box touches a vertex: it is the smallest such box |
| RoomBounds.CalculateRoomBounds | utils/roomBounds.ts:14-38 | the loop's result is the box `BoundsOf` of the vertices |
| RoomBounds.PrefixStep | utils/roomBounds.ts:24-29 | one more vertex widens the box by `Math.min` and `Math.max` with it |
| RoomBounds.Crosses | utils/roomBounds.ts:54 | a crossing edge has ends of different `y`, so the division on that line never has a zero denominator |
| RoomBounds.IsPointInPolygon | utils/roomBounds.ts:43-60 | the loop's verdict is the even-odd rule over all edges |
| RoomBounds.NoCrossingZeroCount | utils/roomBounds.ts:48-57 | when no edge crosses, the count is zero |
| RoomBounds.EmptyPolygonContainsNothing | utils/roomBounds.ts:43-60 | a polygon without vertices contains no point |
| RoomBounds.OutsideVerticalRange | utils/roomBounds.ts:43-60 | a point below every vertex, or at or above every vertex, is outside |
| RoomBounds.Clamp | utils/roomBounds.ts:75-76 | `Math.max(lo, Math.min(hi, v))` is at least `lo`, at most `hi` when the range is non-empty, and `v` itself when `v` is in range |
| RoomBounds.Corners | utils/roomBounds.ts:79-84 | four footprint corners |
| RoomBounds.Mean | utils/roomBounds.ts:91-92 | the vertex mean exists exactly when there are vertices (otherwise it is `0 / 0`, NaN) |
| RoomBounds.StepToward | utils/roomBounds.ts:95-96 | a step of exactly 0.1, upward exactly when the mean is a number greater than the position |
| RoomBounds.ConstrainFurnitureToRoom | utils/roomBounds.ts:65-102 | the clamped centre exactly when all four corners there pass the point test; otherwise 0.1 from it on each axis, toward the vertex mean, and down when the mean is not greater |
| FurnitureUtils.CmToM | utils/furnitureUtils.ts:13-15 | metres times 100 are the centimetres |
| FurnitureUtils.MToCm | utils/furnitureUtils.ts:20-22 | converting the result back to metres gives the metres |
| FurnitureUtils.CmRoundTrip | utils/furnitureUtils.ts:13-22 | centimetres to metres and back is the identity |
| FurnitureUtils.GetDefaultPosition | utils/furnitureUtils.ts:27-29 | the origin |
| FurnitureUtils.GetDefaultRotation | utils/furnitureUtils.ts:34-36 | no rotation about any axis |
| FurnitureUtils.IsFurnitureInBounds | utils/furnitureUtils.ts:41-56 | the footprint `[x - w/200, x + w/200] x [z - d/200, z + d/200]` lies in the box, walls included |
| FurnitureUtils.CheckFurnitureCollision | utils/furnitureUtils.ts:61-64 | a collision only between distinct pieces of the same room |
| FurnitureUtils.CollisionIsBoxOverlap | utils/furnitureUtils.ts:61-80 | a collision exactly when the pieces are distinct, share a room and their open boxes meet on all three axes |
| FurnitureUtils.CollisionSymmetric | utils/furnitureUtils.ts:61-80 | the test does not depend on argument order |
| FurnitureUtils.TouchingDoesNotCollide | utils/furnitureUtils.ts:75-79 | pieces that only touch face to face, on any axis and from either side, do not collide |
| FurnitureUtils.SamePositionCollides | utils/furnitureUtils.ts:75-79 | distinct pieces of positive size at one spot of one room collide |
| ProjectManager.CreateNewProject | utils/projectManager.ts:15-26 | an empty project, version "1.0.0", one timestamp for both times, named by the trimmed input or the default name when that is blank |
| ProjectManager.GetProjectMetadata | utils/projectManager.ts:31-40 | identity and timestamps copied; the counts are the list lengths |
| ProjectManager.UpdateProject | utils/projectManager.ts:97-108 | new contents and update time; id, name, creation time and version kept |
| ProjectManager.ConvertLegacyItem | utils/projectManager.ts:114-125 | a negative `z` is negated, anything else is kept; the result's `z` is never negative |
| ProjectManager.ConvertLegacyFurniture | utils/projectManager.ts:113-127 | same length and order, ids and `x`, `y` kept, every `z` non-negative and equal to the old one up to sign |
| ProjectManager.ConvertLegacyChangesOnlyNegative | utils/projectManager.ts:116-125 | exactly the items with negative `z` change, and only in `z` |
| ProjectManager.ConvertLegacyIdempotent | utils/projectManager.ts:113-127 | converting twice is converting once |
| ProjectManager.ConvertLegacyKeepsNewData | utils/projectManager.ts:113-127 | data with no negative `z` is returned unchanged |
| AppContext.ApplyPatch | contexts/AppContext.tsx:29 | `{ ...room, ...updates }`: every field in the patch overrides, every other field is kept |
| AppContext.UpdatedRooms | contexts/AppContext.tsx:27-31 | same length and order; rooms with the id patched, all others unchanged |
| AppContext.WithoutRoom | contexts/AppContext.tsx:35 | exactly the rooms with another id; that they keep their input order and multiplicity is stated by `WithoutRoomAppend` and `WithoutAbsentRoom` |
| AppContext.WithoutRoomAppend | contexts/AppContext.tsx:35 | the filter distributes over concatenation, so it keeps the order |
| AppContext.WithoutAbsentRoom | contexts/AppContext.tsx:35 | deleting an id no room has changes nothing |
| AppContext.UpdateAbsentRoom | contexts/AppContext.tsx:26-32 | updating an id no room has changes nothing |
| AppContext.WithoutRoomIdempotent | contexts/AppContext.tsx:35 | deleting twice is deleting once |
| AppContext.AddThenDelete | contexts/AppContext.tsx:21-39 | adding a room and deleting its id leaves the old list without that id |
| AppContext.RoomStore.constructor | contexts/AppContext.tsx:18-19 | no rooms and no selection at start |
| AppContext.RoomStore.AddRoom | contexts/AppContext.tsx:21-24 | the room appended, with no duplicate check, and selected |
| AppContext.RoomStore.UpdateRoom | contexts/AppContext.tsx:26-32 | the rooms become `UpdatedRooms`; the selection is untouched |
| AppContext.RoomStore.DeleteRoom | contexts/AppContext.tsx:34-39 | the rooms become `WithoutRoom`; the selection is cleared exactly when it was the deleted id |
| AppContext.RoomStore.SetActiveRoomId | contexts/AppContext.tsx:19 | the selection replaced, the rooms kept |
| RoomForm.OrDefault | components/RoomForm.tsx:77-78 | JavaScript's `or` on a number: zero falls back, any other value is kept |
| RoomForm.TextOrDefault | components/RoomForm.tsx:82-83 | a missing or empty colour falls back to the default |
| RoomForm.RecoverRectangle | components/RoomForm.tsx:49-78 | positive width and depth; 300 x 200 for an outline of fewer than four vertices; otherwise the first edge's x extent and the second edge's y extent in centimetres, each replaced by 300 or 200 when it is zero |
| RoomForm.EditFormData | components/RoomForm.tsx:71-84 | the edit form shows the name, a rectangle with the recovered size, other shapes at their defaults, the height in centimetres, and the room's colours with `#e0e0e0` and `#ffffff` standing in for a missing or empty one |
| RoomForm.ParamValue | components/RoomForm.tsx:97 | `parseInt` with 0 for NaN: the integer the text starts with, else 0 |
| RoomForm.SetShapeParam | components/RoomForm.tsx:96-108 | the other shapes' parameters are untouched |
| RoomForm.SetThenGet | components/RoomForm.tsx:96-108 | the named parameter of the current shape takes the new value; no other parameter of any shape changes |
| RoomForm.SubmitRoom | components/RoomForm.tsx:124-175 | guards in order (room limit when adding, non-blank name, positive height), each message exactly when its guard is the first to fail; an add or an update exactly when all pass, with the trimmed name, the selected outline and the height divided by 100 |
| RoomForm.EditRecoversRectangle | components/RoomForm.tsx:51-57 | a generated rectangle opens in the edit form with its own width and depth |
| RoomForm.SaveUnchangedRectangle | components/RoomForm.tsx:44-88 | saving an edited rectangle unchanged writes back the same outline and height, given that the height text reads back |
| RoomForm.SaveUnchangedWholeCentimetres | components/RoomForm.tsx:44-88 | for a height of whole centimetres shown as its decimal digits, saving an edited rectangle unchanged writes back the same outline and height, with the read-back proved |
| RoomForm.EditFlattensLShape | components/RoomForm.tsx:51-57 | an L opens as a rectangle of its width and `depth - cutoutDepth` |
| RoomForm.EditKeepsOneUArm | components/RoomForm.tsx:51-57 | a U opens as a rectangle of one arm's width and `depth - armDepth` |
| RoomForm.RoomFormState.constructor | components/RoomForm.tsx:39-45 | the form is filled by the edit-mode effect and has no error |
| RoomForm.RoomFormState.SetEditingRoom | components/RoomForm.tsx:45-88 | a new edited room refills the form by the effect |
| RoomForm.RoomFormState.HandleShapeParamChange | components/RoomForm.tsx:96-108 | only the named parameter of the current shape changes |
| RoomForm.RoomFormState.HandleShapeTypeChange | components/RoomForm.tsx:90-94 | the selected shape changes and the error is cleared |
| RoomForm.RoomFormState.HandleSubmit | components/RoomForm.tsx:124-175 | a rejection only sets the error; an add appends and selects the room and resets the form; an edit patches the room and keeps the form |
| FurnitureForm.ApplyPreset | components/FurnitureForm.tsx:82-87 | name and sizes from the preset, colour kept |
| FurnitureForm.SubmitFurniture | components/FurnitureForm.tsx:27-80 | guards in order (non-blank name, selected room, positive width, height, depth), each message exactly when its guard is the first to fail; otherwise one piece with the trimmed name, the parsed sizes, zero pose, the colour and the selected room |
| FurnitureForm.PresetsValid | components/FurnitureForm.tsx:89-96 | every preset has a name without surrounding white space and positive whole-number sizes |
| FurnitureForm.PositiveDigitsValue | components/FurnitureForm.tsx:89-96 | digits not starting with 0 have a positive value |
| FurnitureForm.ValidPresetSubmits | components/FurnitureForm.tsx:27-96 | with a selected room, a well-formed preset submits as a piece with its name and its sizes read as numbers |
| FurnitureForm.SubmitAccepts | components/FurnitureForm.tsx:60-73 | a form passing every guard adds exactly the piece built from it |
| FurnitureForm.PositiveDigitsRead | components/FurnitureForm.tsx:41-58 | `parseFloat` reads positive digits as a positive value |
| FurnitureForm.PresetAlwaysSubmits | components/FurnitureForm.tsx:27-96 | with a selected room, every preset button leads to a successful submission |
| FurnitureForm.PresetNameTrimmed | components/FurnitureForm.tsx:63 | a name without surrounding white space is its own trim |
| FurnitureForm.FurnitureFormState.constructor | components/FurnitureForm.tsx:8-19 | the form starts at 80 x 80 x 40 cm, brown, with no error |
| FurnitureForm.FurnitureFormState.HandlePreset | components/FurnitureForm.tsx:82-87 | the form becomes `ApplyPreset` of itself; error and submitted pieces kept |
| FurnitureForm.FurnitureFormState.HandleSubmit | components/FurnitureForm.tsx:27-80 | a rejection only sets the error; a success hands exactly one piece on and resets the form to its initial values |
| ShapeGeometry.RectangleCorners | utils/presetShapes.ts:34-44 | a rectangle is exactly `[(0,0), (w,0), (w,d), (0,d)]` in metres |
| ShapeGeometry.RectangleIsOrthogonal | utils/presetShapes.ts:34-44 | a rectangle of positive size passes `validateOrthogonalPolygon` |
| ShapeGeometry.LShapeIsOrthogonal | utils/presetShapes.ts:49-63 | a proper L passes `validateOrthogonalPolygon` |
| ShapeGeometry.UShapeIsOrthogonal | utils/presetShapes.ts:68-86 | a proper U passes `validateOrthogonalPolygon` |
| ShapeGeometry.UOutlineIsOrthogonal | utils/presetShapes.ts:76-85 | the U outline with positive arm, notch and depth sizes passes the check |
| ShapeGeometry.GeneratedIsOrthogonal | components/RoomForm.tsx:110-122 | the outline of any shape with proper parameters passes the check |
| ShapeGeometry.DefaultShapesAreOrthogonal | utils/presetShapes.ts:91-108 | all three default outlines pass the check |
| ShapeGeometry.AddedRoomIsOrthogonal | components/RoomForm.tsx:144-167 | a room the form adds with proper parameters has an orthogonal outline |
| ShapeGeometry.RectangleCrossings | utils/roomBounds.ts:48-57 | on a rectangle only the two vertical walls cross, each for points left of it in the band `0 <= z < d` |
| ShapeGeometry.WallCrossing | utils/roomBounds.ts:54 | a vertical wall crosses exactly when it straddles the point's line and lies to its right |
| ShapeGeometry.RectangleContains | utils/roomBounds.ts:43-60 | a generated rectangle contains exactly `[0, w) x [0, d)`, a half-open box |
| ShapeGeometry.RectangleBounds | utils/roomBounds.ts:14-38 | a generated rectangle's box is `[0, w] x [0, d]` |
| ShapeGeometry.FlushAgainstFarWallIsNudged | utils/roomBounds.ts:75-98 | a footprint clamped flush against the far `x` wall of a rectangle fails the corner test and is nudged |
| ShapeGeometry.InteriorPositionKept | utils/roomBounds.ts:75-101 | a footprint inside a rectangle and clear of its far walls is kept where it is |
| ShapeGeometry.ClampedIsInBounds | utils/roomBounds.ts:75-76 | a piece that fits the box and is moved to its clamped centre passes `isFurnitureInBounds` for that box |
| ShapeGeometry.LCutoutOutside | utils/roomBounds.ts:43-60 | a point in the corner an L cuts out lies strictly inside the L's bounding box, yet the point test puts it outside the L |

## Left out

- Input and output are not modelled: saving and loading projects
  (`saveProjectsToLocal`, `loadProjectsFromLocal`), the file and gist
  storage, and the API routes. They are asynchronous I/O.
- Id generation (`generateId`, `generateFurnitureId`, `generateProjectId`)
  and `new Date()` are not modelled. Ids and timestamps are parameters.
- Floating-point rounding is not modelled. Lengths are exact reals, so
  `cmToM(mToCm(m)) == m` holds here even where doubles would round.
- JsNumber.ScanNumber: the number readers cover signs, digits and one
  decimal point. They leave out exponents, hexadecimal, `Infinity`, and the
  Unicode white space beyond what `JsString.IsSpace` lists.
- JavaScript's number-to-text conversion (`toString`, RoomForm.tsx:81) is
  a parameter `show`. RoomForm.SaveUnchangedRectangle states its round trip
  under the assumption that the text reads back; for whole-centimetre
  heights shown as their digits, RoomForm.SaveUnchangedWholeCentimetres
  proves that read-back.
- RoomForm.RecoverRectangle: the branches at components/RoomForm.tsx:58-68
  only run when a vertex `y` is `null` or `undefined`. A typed room never
  has such a vertex, so they are left out.
- `onEditComplete`, `handleInputChange` for text fields, the furniture
  form's `handleInputChange`, and all rendering are left out. They only
  copy a typed value into the form or call back into the page.
- `addFurniture` and the furniture list are not part of the room store in
  `contexts/AppContext.tsx`. The furniture form records the pieces it hands
  to `addFurniture` in its `submitted` list.
- PresetShapes.GenerateUShape follows the code, not the parameter comment.
  utils/presetShapes.ts:20 describes `armDepth` as the depth of the two
  arms. The code at utils/presetShapes.ts:73-84 instead cuts a notch
  `openingWidth` wide from the front edge to `depth - armDepth`, which
  removes `openingWidth x (depth - armDepth)`. The arms are then
  `depth - armDepth` deep at the notch, not `armDepth`. The two readings
  agree only when `depth = 2 x armDepth`, as with the default 400 and 200.
- RoomBounds.IsPointInPolygon writes the inline test of line 54 as a call
  to `Crosses`, which is the same expression.
- The Three.js scene, dragging, keyboard nudges and the camera are left
  out. They are a foreign library and floating-point trigonometry.
- Stale React closures and batched state updates are not modelled. Each
  handler sees the state of its own call.
- RoomForm.SubmitRoom: the form is modelled by its number fields as typed
  text. The `default` branch of `generateVertices` returns `[]` for an
  unknown shape type; that cannot occur with the three-valued `ShapeType`.
