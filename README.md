# ProjectorUtility blend engine in Dafny

ProjectorUtility drives a wall of projectors arranged as a `cols` x `rows` grid. Each
projector's picture is one tile. Neighbouring tiles overlap, and a blend fraction on each
of a tile's four edges says how much. This project models the logic of that engine:

- the controller's row-major tile list, where tile `(col, row)` has id `col + row * cols`,
  and how `BuildScreenSetting` grows and shrinks it;
- the symmetric blend edits, which mirror a shared edge onto the neighbouring tile, and
  the mask and uv-shift edits;
- the narrowest perimeter blends (`CalculateNarrowestBlend`);
- the column and row blend sums (`NormalizedBlendHeight`, `NormalizedBlendWidth`);
- `GetAdjustedPosition`, which maps a viewport position through the blends and the uv
  shift of the tile that owns it;
- the per-tile records `ProjectorUtilityBlender.SetBuffer` hands to the shader;
- the argument checks of the XML storage's `DataElement`.

Modules, one per file:

- `Wrappers` (`wrappers.dfy`): the `Option` type.
- `UnityMath` (`unity_math.dfy`): `Vector2`, `Mathf.Lerp`, `Clamp01`, `FloorToInt` and
  `CeilToInt`, over exact reals.
- `ScreenModel` (`screen_model.dfy`): one tile's settings as a value, and its four edges.
- `BlendGeometry` (`blend_geometry.dfy`): what `GetAdjustedPosition` computes, as
  functions of a snapshot of the grid, with the index-safety, identity, overlap-count and
  centre-seam lemmas, and what a mask or uv-shift write does to the result.
- `MarginWalk` (`margin_walk.dfy`): one iteration of the four margin loops, and how the
  finished loop meets the closed form.
- `GridEdit` (`grid_edit.dfy`): the narrowest blends, the blend sums, neighbours, the
  symmetric edit and resizing, as functions of the tile list, with their lemmas.
- `Blender` (`blender.dfy`): the `ProjectorUtilityBuffer` record, the buffer `SetBuffer`
  fills, and the `ProjectorUtilityBlender` class.
- `Controller` (`controller.dfy`): the `ProjectorUtilityController` class, whose methods
  carry the source's loops and updates and are proved against the functions above.
- `XmlStorageData` (`data_element.dfy`): `DataElement`, its `Set` overloads and its
  constructors.

The controller is a class. Its fields are the common settings it reads
(`NumOfColProjectors`, `NumOfRowProjectors`, `Symmetry`, `LerpedInputMode`),
`_colScreens`, `_rowScreens`, `NumOfScreen`, the tile list and the four narrowest values.
Each tile is a `ScreenSettingEntity` value in a `seq` field. A write to one of a tile's
reactive properties replaces that tile's record. The class invariant `Valid()` says:

- there is at least one column and one row;
- the counts agree with the common settings;
- there are `cols * rows` tiles, and tile `i` has id `i`;
- the blender's buffer describes the current tiles.

Every method that an event or an outside caller invokes keeps this invariant: `Valid()`
is among its postconditions. `ClampCounts` and `ResizeTiles`, the two steps of
`BuildScreenSetting`, leave it broken in between.

A list read past either end, which throws `ArgumentOutOfRangeException` in C#, is the
result `IndexOutOfRange` of `GetAdjustedPosition`. `ViewportReadsInBounds` proves that
this result never occurs for a position in the viewport square. A C# `null` is `None`.
An exception raised by `DataElement` is a value of the `Exception` datatype.

`BuildScreenSetting` only raises counts below 1 to 1. The only upper bound is the input field's filter, which
passes counts below 30 (`EnterNumOfCol`, `EnterNumOfRow`).

The empty-key and empty-type checks of `DataElement.Set` call `ArgumentException(string
message, string paramName)` with the parameter name in the message position. The model
keeps that order.

## Model

| member | source | states |
|---|---|---|
| UnityMath.Clamp01 | Assets/ProjectorUtility/Scripts/Controller/ProjectorUtilityController.cs:231-232 | the clamp Unity's `Lerp` applies to its parameter: the result lies in [0, 1], is the input inside that range, and 0 or 1 below or above it |
| UnityMath.Lerp | Assets/ProjectorUtility/Scripts/Controller/ProjectorUtilityController.cs:231-232 | `Mathf.Lerp` returns its first end point for a parameter at or below 0 and its second at or above 1 |
| UnityMath.LerpBetween | Assets/ProjectorUtility/Scripts/Controller/ProjectorUtilityController.cs:231-232 | the lerped coordinate lies between the two margins it interpolates, and `Lerp(0, 1, t)` is `t` on [0, 1] |
| UnityMath.FloorToInt | Assets/ProjectorUtility/Scripts/Controller/ProjectorUtilityController.cs:168-169 | `Mathf.FloorToInt` is the largest integer not above its argument |
| UnityMath.CeilToInt | Assets/ProjectorUtility/Scripts/Controller/ProjectorUtilityController.cs:178 | `Mathf.CeilToInt` is the smallest integer not below its argument |
| ScreenModel.Opposite | Assets/ProjectorUtility/Scripts/Controller/ProjectorUtilityController.cs:403-418 | the mirrored write goes to the other edge of the seam (top to bottom, left to right), never to the same edge, and a vertical edge mirrors to a vertical one |
| ScreenModel.OppositeInvolutive | Assets/ProjectorUtility/Scripts/Controller/ProjectorUtilityController.cs:403-418 | mirroring twice lands on the edge written first, which is why the neighbour's echo goes back to the edited edge |
| ScreenModel.WithBlend | Assets/ProjectorUtility/Scripts/Controller/ProjectorUtilityController.cs:403-418 | a write to one blend property sets that blend to the value; the other three blends, the id, the masks and the uv shift keep their values |
| ScreenModel.SameBlendUnchanged | Assets/ProjectorUtility/Scripts/Controller/ProjectorUtilityController.cs:403-418 | writing the value an edge already holds leaves the tile as it was |
| ScreenModel.WithEdgeMask | Assets/ProjectorUtility/Scripts/Controller/ProjectorUtilityController.cs:419-422 | a write to `topMask`, `bottomMask`, `leftMask` or `rightMask` sets that mask; the other masks, the blends, the id and the uv shift keep their values; writing the held value leaves the tile as it was |
| ScreenModel.WithCornerMask | Assets/ProjectorUtility/Scripts/Controller/ProjectorUtilityController.cs:423-426 | a write to one corner mask sets it; the other corners, the edge masks, the blends, the id and the uv shift keep their values; writing the held value leaves the tile as it was |
| ScreenModel.WithUvShift | Assets/ProjectorUtility/Scripts/Controller/ProjectorUtilityController.cs:427 | a write to `uvShift` sets it; blends, masks and id keep their values; writing the held value leaves the tile as it was |
| ScreenModel.Created | Assets/ProjectorUtility/Scripts/Model/ScreenSettingEntity.cs:38-58 | `new ScreenSettingEntity(i)` has id `i`; its four blends, its eight masks and its uv shift are the values the settings store holds for it |
| BlendGeometry.EdgeSumPrepend | Assets/ProjectorUtility/Scripts/Controller/ProjectorUtilityController.cs:199-207 | a blend sum along a line is the first tile's blend plus the sum of the rest, the order in which the "after" loops add |
| BlendGeometry.EdgeSumOfZeros | Assets/ProjectorUtility/Scripts/Controller/ProjectorUtilityController.cs:186-229 | a line whose blends are all zero accumulates zero |
| BlendGeometry.EdgeSumFrame | Assets/ProjectorUtility/Scripts/Controller/ProjectorUtilityController.cs:186-229 | a margin loop's sum depends only on the blends of the tiles on its line |
| BlendGeometry.RowThrough | Assets/ProjectorUtility/Scripts/Controller/ProjectorUtilityController.cs:192-194 | the row line's tile `currentCol` is `screenID`, so `screenID + i` is tile `currentCol + i` of the row |
| BlendGeometry.ColumnThrough | Assets/ProjectorUtility/Scripts/Controller/ProjectorUtilityController.cs:214-216 | the column line's tile `currentRow` is `screenID`, so `screenID + i * cols` is tile `currentRow + i` of the column |
| BlendGeometry.Overlaps | Assets/ProjectorUtility/Scripts/Controller/ProjectorUtilityController.cs:177-180 | the float `FloorToInt(n / 2f)` and `CeilToInt(n / 2f)` are `n / 2` and `(n + 1) / 2`; at most one of the two overlap counts of a line is positive; the centre tile of an odd line has both counts 0 |
| BlendGeometry.TileMargins | Assets/ProjectorUtility/Scripts/Controller/ProjectorUtilityController.cs:184-229 | `leftBlends`, `rightBlends`, `upperBlends` and `lowerBlends` are the before and after margins of the row and the column through the owning tile, and of each pair at least one is zero, since only one side of the centre has a positive overlap count |
| BlendGeometry.LineInBoundsByEnds | Assets/ProjectorUtility/Scripts/Controller/ProjectorUtilityController.cs:186-229 | every read of a loop exists when the first and last reads do |
| BlendGeometry.OwningTileInViewport | Assets/ProjectorUtility/Scripts/Controller/ProjectorUtilityController.cs:168-169 | for a viewport position `currentCol` is in [0, cols] and `currentRow` in [0, rows], and below `cols` or `rows` away from the right or bottom border |
| BlendGeometry.ViewportReadsInBounds | Assets/ProjectorUtility/Scripts/Controller/ProjectorUtilityController.cs:168-229 | index safety: for a position in [0,1] x [0,1] either the sentinel fires or every `screenID +- k` read is a tile of the grid, so no read throws; away from the right and bottom borders the horizontal reads stay in the owning row and the vertical reads in the owning column |
| BlendGeometry.OwnLinesInBounds | Assets/ProjectorUtility/Scripts/Controller/ProjectorUtilityController.cs:172-229 | an owning id that passes the sentinel lies on a real row, and every read of both lines through it exists |
| BlendGeometry.RowInBounds | Assets/ProjectorUtility/Scripts/Controller/ProjectorUtilityController.cs:186-207 | every read of the left and right loops is a tile of the grid |
| BlendGeometry.ColumnInBounds | Assets/ProjectorUtility/Scripts/Controller/ProjectorUtilityController.cs:208-229 | every read of the upper and lower loops is a tile of the grid |
| BlendGeometry.VerticalEnds | Assets/ProjectorUtility/Scripts/Controller/ProjectorUtilityController.cs:208-229 | the first and last reads of each vertical loop are tiles of the grid |
| BlendGeometry.RightBorderUsesNextRow | Assets/ProjectorUtility/Scripts/Controller/ProjectorUtilityController.cs:168-175 | at `x = 1` on a row other than the last, `screenID` is `(row + 1) * cols`, below the tile count, so the sentinel does not fire; the right-hand reads leave the position's row, yet no read throws |
| BlendGeometry.ZeroBlendsAreIdentity | Assets/ProjectorUtility/Scripts/Controller/ProjectorUtilityController.cs:158-288 | with every blend and every uv shift zero, a position with `0 <= x < 1` and `0 < y <= 1` comes back unchanged in both input modes |
| BlendGeometry.ZeroMargins | Assets/ProjectorUtility/Scripts/Controller/ProjectorUtilityController.cs:184-229 | with every blend zero, all four margins are zero |
| BlendGeometry.EdgeSumUpdate | Assets/ProjectorUtility/Scripts/Controller/ProjectorUtilityController.cs:186-229 | changing one tile's blend changes a loop's sum by the difference exactly when that tile is on the summed range |
| BlendGeometry.EvenCentreSeamCountedOnce | Assets/ProjectorUtility/Scripts/Controller/ProjectorUtilityController.cs:190-223 | on an even line the parity guard lets the centre seam enter the margins through one of its two blends only: a position before the centre counts the left or upper centre tile's far blend and ignores the other tile's near blend, and a position after the centre the reverse |
| BlendGeometry.SumOtherEdge | Assets/ProjectorUtility/Scripts/Controller/ProjectorUtilityController.cs:186-229 | writing one edge of a tile leaves the sums over every other edge unchanged |
| BlendGeometry.OddCentreHasNoMargins | Assets/ProjectorUtility/Scripts/Controller/ProjectorUtilityController.cs:177-180 | the centre tile of an odd line accumulates nothing on either side |
| BlendGeometry.MarginsFrame | Assets/ProjectorUtility/Scripts/Controller/ProjectorUtilityController.cs:184-229 | the four margin loops read only blends: lists that agree in every blend give the same margins |
| BlendGeometry.RemappedFrame | Assets/ProjectorUtility/Scripts/Controller/ProjectorUtilityController.cs:158-288 | `GetAdjustedPosition` reads only the blends and the owning tile's uv shift: lists that agree there remap the position alike |
| BlendGeometry.EdgeMaskKeepsRemap | Assets/ProjectorUtility/Scripts/Controller/ProjectorUtilityController.cs:419-422 | a write to an edge mask (`topMask`, ...) moves no position |
| BlendGeometry.CornerMaskKeepsRemap | Assets/ProjectorUtility/Scripts/Controller/ProjectorUtilityController.cs:423-426 | a write to a corner mask moves no position |
| BlendGeometry.UvShiftKeepsOtherTiles | Assets/ProjectorUtility/Scripts/Controller/ProjectorUtilityController.cs:282 | a write to tile `id`'s uv shift leaves every position the tile does not own, and every position on a single screen, where it was |
| BlendGeometry.UvShiftMovesOwnTile | Assets/ProjectorUtility/Scripts/Controller/ProjectorUtilityController.cs:282-285 | a write to tile `id`'s uv shift moves a position that tile owns by the change of shift, x as it is and y flipped; a failing read still fails |
| BlendGeometry.BeforeMargin | Assets/ProjectorUtility/Scripts/Controller/ProjectorUtilityController.cs:186-196 | the left or upper margin: the `leftOverlapCount` loop's sum, zero for a tile at or past the centre of its line |
| BlendGeometry.AfterMargin | Assets/ProjectorUtility/Scripts/Controller/ProjectorUtilityController.cs:197-207 | the right or lower margin: the `rightOverlapCount` loop's sum, zero for a tile before the centre and for the centre tile of an odd line |
| BlendGeometry.OwningCol | Assets/ProjectorUtility/Scripts/Controller/ProjectorUtilityController.cs:168 | `currentCol` is the integer part of `x * cols`: `currentCol <= x * cols < currentCol + 1` |
| BlendGeometry.OwningRow | Assets/ProjectorUtility/Scripts/Controller/ProjectorUtilityController.cs:169 | `currentRow` is the integer part of `(1 - y) * rows`, the flipped coordinate scaled by the row count |
| BlendGeometry.OwningId | Assets/ProjectorUtility/Scripts/Controller/ProjectorUtilityController.cs:170 | `screenID` is `currentCol + currentRow * cols`; `OwningTileInViewport` bounds it for a viewport position |
| BlendGeometry.Compressed | Assets/ProjectorUtility/Scripts/Controller/ProjectorUtilityController.cs:231-232 | in `LerpedInputMode` each coordinate lands between its two margins, `[left, 1 - right]` and `[upper, 1 - lower]`; with no margins a unit-square position stays where it is |
| BlendGeometry.Reframed | Assets/ProjectorUtility/Scripts/Controller/ProjectorUtilityController.cs:231-288 | the lerped branch maps each coordinate into the span between its two margins, then shifts it; the other branch offsets the flipped position by the margin differences and the shift; with zero margins and shift a unit-square position comes back flipped to `(x, 1 - y)` |
| BlendGeometry.RemappedAt | Assets/ProjectorUtility/Scripts/Controller/ProjectorUtilityController.cs:172-288 | an id at or past `cols * rows` gives `(1, 1)`; `IndexOutOfRange` occurs exactly when the id passes that test and some read of the loops falls outside the list |
| BlendGeometry.Remapped | Assets/ProjectorUtility/Scripts/Controller/ProjectorUtilityController.cs:158-288 | one screen returns the position unchanged; past the sentinel `(1, 1)`; `IndexOutOfRange` only when a read of the owning tile's lines falls outside the list |
| MarginWalk.BeforeStep | Assets/ProjectorUtility/Scripts/Controller/ProjectorUtilityController.cs:188-195 | one iteration of the left or upper loop adds the guarded near blend of the next tile and the far blend of the current tile to the partial margin |
| MarginWalk.BeforeReadOutside | Assets/ProjectorUtility/Scripts/Controller/ProjectorUtilityController.cs:192-194 | a read of the left or upper loop that throws is one of that loop's reads, so the margin is not defined |
| MarginWalk.BeforeComplete | Assets/ProjectorUtility/Scripts/Controller/ProjectorUtilityController.cs:186-196 | after `leftOverlapCount` iterations (or none) the partial sum is the whole left or upper margin |
| MarginWalk.AfterStep | Assets/ProjectorUtility/Scripts/Controller/ProjectorUtilityController.cs:199-206 | one iteration of the right or lower loop adds the guarded far blend of the previous tile and the near blend of the current tile |
| MarginWalk.AfterReadOutside | Assets/ProjectorUtility/Scripts/Controller/ProjectorUtilityController.cs:203-205 | a read of the right or lower loop that throws is one of that loop's reads |
| MarginWalk.AfterComplete | Assets/ProjectorUtility/Scripts/Controller/ProjectorUtilityController.cs:197-207 | after `rightOverlapCount` iterations (or none) the partial sum is the whole right or lower margin |
| GridEdit.NarrowestIsMinimum | Assets/ProjectorUtility/Scripts/Controller/ProjectorUtilityController.cs:469-491 | each narrowest value is the minimum of 1 and the blends of its side's border tiles (`i % cols == 0`, `(i + 1) % cols == 0`, `i < cols`, `i >= n - cols`): at most 1, at most each of those blends, and equal to 1 or to one of them |
| GridEdit.NarrowestUpTo | Assets/ProjectorUtility/Scripts/Controller/ProjectorUtilityController.cs:469-491 | the running minimum of `CalculateNarrowestBlend`'s loop over the first `k` tiles; `NarrowestIsMinimum` states what it is |
| GridEdit.Narrowest | Assets/ProjectorUtility/Scripts/Controller/ProjectorUtilityController.cs:469-491 | the finished loop's value for one side; `NarrowestIsMinimum` and `NarrowestOnlyReadsBorder` state what it is |
| GridEdit.NarrowestOnlyReadsBorder | Assets/ProjectorUtility/Scripts/Controller/ProjectorUtilityController.cs:469-491 | no tile off the border of a side affects that side's narrowest value |
| GridEdit.ClampIndex | Assets/ProjectorUtility/Scripts/Controller/ProjectorUtilityController.cs:65-68 | the column or row read is in [1, count]; an argument in range is kept, one below 1 becomes 1, one above the count becomes the count |
| GridEdit.ColumnBlendSum | Assets/ProjectorUtility/Scripts/Controller/ProjectorUtilityController.cs:62-74 | the sum of `NormalizedBlendHeight`: top plus bottom blends down one column; `ColumnBlendSumBounds` bounds it and the method is proved against it |
| GridEdit.RowBlendSum | Assets/ProjectorUtility/Scripts/Controller/ProjectorUtilityController.cs:81-93 | the sum of `NormalizedBlendWidth`: left plus right blends along one row; `RowBlendSumBounds` bounds it and the method is proved against it |
| GridEdit.ColumnEnd | Assets/ProjectorUtility/Scripts/Controller/ProjectorUtilityController.cs:69 | the first and last tiles of a column exist |
| GridEdit.ColumnWalk | Assets/ProjectorUtility/Scripts/Controller/ProjectorUtilityController.cs:69 | the loop of `NormalizedBlendHeight` steps one row at a time and its bound `col - 1 + cols * (rows - 1)` admits exactly the `rows` tiles of the column |
| GridEdit.RowEnd | Assets/ProjectorUtility/Scripts/Controller/ProjectorUtilityController.cs:88 | the first and last tiles of a row exist |
| GridEdit.EdgeSumBounds | Assets/ProjectorUtility/Scripts/Controller/ProjectorUtilityController.cs:62-93 | with blends in [0, 1], a sum over a line lies between 0 and the number of tiles summed |
| GridEdit.ColumnBlendSumBounds | Assets/ProjectorUtility/Scripts/Controller/ProjectorUtilityController.cs:62-74 | with every blend in [0, 1], `NormalizedBlendHeight` lies between 0 and twice the number of rows |
| GridEdit.RowBlendSumBounds | Assets/ProjectorUtility/Scripts/Controller/ProjectorUtilityController.cs:81-93 | with every blend in [0, 1], `NormalizedBlendWidth` lies between 0 and twice the number of columns |
| GridEdit.NeighbourIsAdjacent | Assets/ProjectorUtility/Scripts/Controller/ProjectorUtilityController.cs:403-418 | the handlers' guards (`id >= cols`, `id < n - cols`, `id % cols != 0`, `(id + 1) % cols != 0`) fail exactly on the border tiles of that side; otherwise the mirrored tile is another tile of the grid, in the same column or row, whose opposite neighbour is the edited tile |
| GridEdit.Neighbour | Assets/ProjectorUtility/Scripts/Controller/ProjectorUtilityController.cs:403-418 | the tile a handler mirrors onto, or none when its guard fails; `NeighbourIsAdjacent` states which tile that is |
| GridEdit.TopNeighbour | Assets/ProjectorUtility/Scripts/Controller/ProjectorUtilityController.cs:404 | `id - cols` is in the column of `id` |
| GridEdit.BottomNeighbour | Assets/ProjectorUtility/Scripts/Controller/ProjectorUtilityController.cs:408 | `id + cols` is in the column of `id` |
| GridEdit.LeftNeighbour | Assets/ProjectorUtility/Scripts/Controller/ProjectorUtilityController.cs:412 | `id - 1` is in the row of `id` |
| GridEdit.RightNeighbour | Assets/ProjectorUtility/Scripts/Controller/ProjectorUtilityController.cs:416 | `id + 1` is a tile of the grid in the row of `id` |
| GridEdit.EdgeEdited | Assets/ProjectorUtility/Scripts/Controller/ProjectorUtilityController.cs:403-418 | the tile list after a blend write and its mirrored write; `EditedBlend`, `EditedFrame`, `WrittenOnBothSides` and `SymmetricEditKeepsSeams` state what changes |
| GridEdit.EditedBlend | Assets/ProjectorUtility/Scripts/Controller/ProjectorUtilityController.cs:403-418 | an edit that changes a blend sets the edited edge and, with symmetry on and a neighbour present, the neighbour's opposite edge; with symmetry off or on a border no neighbour changes; every other blend keeps its value; an edit to the current value changes nothing |
| GridEdit.EditedFrame | Assets/ProjectorUtility/Scripts/Controller/ProjectorUtilityController.cs:403-418 | an edit touches no tile other than the edited one and its mirror, and in those only blends |
| GridEdit.WrittenOnBothSides | Assets/ProjectorUtility/Scripts/Controller/ProjectorUtilityController.cs:403-418 | with symmetry on, both sides of a seam are written together or not at all |
| GridEdit.SymmetricEditKeepsSeams | Assets/ProjectorUtility/Scripts/Controller/ProjectorUtilityController.cs:403-418 | with symmetry on, an edit keeps every seam of a grid whose seams match on both sides matching |
| GridEdit.AtLeastOne | Assets/ProjectorUtility/Scripts/Controller/ProjectorUtilityController.cs:359-360 | the result is at least 1 and at least the count; a count below 1 becomes 1, and a count of 1 or more is kept |
| GridEdit.Resized | Assets/ProjectorUtility/Scripts/Controller/ProjectorUtilityController.cs:366-465 | the resized list has `n` tiles; tiles below both counts keep their values; each new tile `k` is `new ScreenSettingEntity(k)`; ids `0..n-1` in order stay in order |
| GridEdit.ResizedGrows | Assets/ProjectorUtility/Scripts/Controller/ProjectorUtilityController.cs:369-451 | one iteration of the growing loop appends the tile created for the next id |
| Blender.Describe | Assets/ProjectorUtility/Scripts/Core/ProjectorUtilityBlender.cs:81-97 | the record of an entity has `screenID` its id, the four overlaps its top, bottom, left and right blends in that order, the uv shift split into x and y, and the masks copied unchanged |
| Blender.Filled | Assets/ProjectorUtility/Scripts/Core/ProjectorUtilityBlender.cs:76-98 | the buffer has `NumOfScreen` slots |
| Blender.FilledSlots | Assets/ProjectorUtility/Scripts/Core/ProjectorUtilityBlender.cs:77-98 | a slot no entity names keeps the all-zero record; a slot holds the record of the last entity in list order that names it |
| Blender.BufferInScreenOrder | Assets/ProjectorUtility/Scripts/Core/ProjectorUtilityBlender.cs:79-97 | with ids `0..n-1` in list order, every id is below `n` and slot `i` describes entity `i`, with `screenID == i` |
| Blender.ProjectorUtilityBlender.SetBuffer | Assets/ProjectorUtility/Scripts/Core/ProjectorUtilityBlender.cs:69-100 | the uploaded buffer is the `NumOfScreen`-slot buffer with each entity's record at the slot of its id |
| Blender.ProjectorUtilityBlender.constructor | Assets/ProjectorUtility/Scripts/Core/ProjectorUtilityBlender.cs:49 | before the first `SetBuffer` no records have been uploaded |
| Controller.TileIndexStep | Assets/ProjectorUtility/Scripts/Controller/ProjectorUtilityController.cs:192-227 | `screenID + k * stride` and `screenID - k * stride` are the tiles `k` steps along the line |
| Controller.CellsIsProduct | Assets/ProjectorUtility/Scripts/Controller/ProjectorUtilityController.cs:364 | the controller's screen count is `_colScreens * _rowScreens` |
| Controller.CellsDivisible | Assets/ProjectorUtility/Scripts/Controller/ProjectorUtilityController.cs:364 | the grid holds whole rows: the screen count is a multiple of the column count |
| Controller.OwningTileByReciprocal | Assets/ProjectorUtility/Scripts/Controller/ProjectorUtilityController.cs:168-169 | `FloorToInt(x / (1 / cols))` and `FloorToInt(y / (1 / rows))` of the flipped position are the owning column and row |
| Controller.ColumnLoop | Assets/ProjectorUtility/Scripts/Controller/ProjectorUtilityController.cs:69-72 | the loop from `col - 1` while `i <= col - 1 + cols * (rows - 1)`, stepping by `cols`, adds the top and bottom blends of exactly the `rows` tiles of the column |
| Controller.RowLoop | Assets/ProjectorUtility/Scripts/Controller/ProjectorUtilityController.cs:88-91 | the loop over `[cols * row - cols, cols * row)` adds the left and right blends of exactly the `cols` tiles of the row |
| Controller.ProjectorUtilityController.Shaped | Assets/ProjectorUtility/Scripts/Controller/ProjectorUtilityController.cs:356-467 | the shape `BuildScreenSetting` leaves: counts at least 1 and in step with the common settings, `NumOfScreen` their product, one tile per screen with ids `0..n-1` |
| Controller.ProjectorUtilityController.Valid | Assets/ProjectorUtility/Scripts/Core/ProjectorUtilityBlender.cs:69-100 | the shape, plus the buffer `SetBuffer` last uploaded describing the current tiles |
| Controller.ProjectorUtilityController.constructor | Assets/ProjectorUtility/Scripts/Controller/ProjectorUtilityController.cs:300-307 | the common settings hold the values the settings store yields and the tile list is empty |
| Controller.ProjectorUtilityController.Start | Assets/ProjectorUtility/Scripts/Controller/ProjectorUtilityController.cs:300-315 | afterwards the invariant holds, the grid has the clamped counts and the resized tiles, and the four narrowest values are 0, not the values `BuildScreenSetting` computed |
| Controller.ProjectorUtilityController.ClearNarrowest | Assets/ProjectorUtility/Scripts/Controller/ProjectorUtilityController.cs:311-314 | the four narrowest values become 0 and the invariant is kept |
| Controller.ProjectorUtilityController.BuildScreenSetting | Assets/ProjectorUtility/Scripts/Controller/ProjectorUtilityController.cs:356-467 | afterwards `cols` and `rows` are the counts raised to at least 1, the tile list is the old one resized to `cols * rows` tiles with ids in order, the buffer is current and the narrowest values are those of the new tiles |
| Controller.ProjectorUtilityController.ClampCounts | Assets/ProjectorUtility/Scripts/Controller/ProjectorUtilityController.cs:359-364 | counts below 1 become 1 in the common settings and in `_colScreens`/`_rowScreens`, and `NumOfScreen` is their product, at least 1 |
| Controller.ProjectorUtilityController.ResizeTiles | Assets/ProjectorUtility/Scripts/Controller/ProjectorUtilityController.cs:366-465 | the grow and shrink loops bring the tile list to the resized list of `n` tiles |
| Controller.ProjectorUtilityController.UpdateBlend | Assets/ProjectorUtility/Scripts/Controller/ProjectorUtilityController.cs:501-509 | afterwards the buffer describes the tiles and the narrowest values are those of the tiles |
| Controller.ProjectorUtilityController.CalculateNarrowestBlend | Assets/ProjectorUtility/Scripts/Controller/ProjectorUtilityController.cs:469-491 | the four values are the narrowest blends of the current tiles, hence (with `NarrowestIsMinimum`) the minimum of 1 and the border tiles' blends |
| Controller.ProjectorUtilityController.NormalizedBlendHeight | Assets/ProjectorUtility/Scripts/Controller/ProjectorUtilityController.cs:62-74 | the sum of top and bottom blends over exactly the `rows` tiles of column `ClampIndex(col) - 1`; every read exists |
| Controller.ProjectorUtilityController.NormalizedBlendWidth | Assets/ProjectorUtility/Scripts/Controller/ProjectorUtilityController.cs:81-93 | the sum of left and right blends over exactly the `cols` tiles of row `ClampIndex(row) - 1`; every read exists |
| Controller.ProjectorUtilityController.AccumulateBefore | Assets/ProjectorUtility/Scripts/Controller/ProjectorUtilityController.cs:186-196 | the left or upper loop finishes exactly when all its reads exist, and then returns the before margin of the line |
| Controller.ProjectorUtilityController.AccumulateAfter | Assets/ProjectorUtility/Scripts/Controller/ProjectorUtilityController.cs:197-207 | the right or lower loop finishes exactly when all its reads exist, and then returns the after margin of the line |
| Controller.ProjectorUtilityController.AccumulateMargins | Assets/ProjectorUtility/Scripts/Controller/ProjectorUtilityController.cs:184-229 | the four loops succeed exactly when every read on both lines through the owning tile exists, and then yield that tile's four margins |
| Controller.ProjectorUtilityController.GetAdjustedPosition | Assets/ProjectorUtility/Scripts/Controller/ProjectorUtilityController.cs:158-288 | the result is the remapped position: unchanged on one screen; `(1, 1)` when `screenID >= cols * rows`; otherwise compressed into the margins (lerped mode) or offset by them, shifted by the owning tile's uv shift and flipped back; `IndexOutOfRange` only when a read fails |
| Controller.ProjectorUtilityController.SetBlend | Assets/ProjectorUtility/Scripts/Controller/ProjectorUtilityController.cs:403-418 | a blend write leaves the tiles as `EdgeEdited` says (edited edge plus mirrored neighbour edge) and keeps the invariant; a write of the current value changes nothing, and any other refreshes the buffer and the narrowest values |
| Controller.ProjectorUtilityController.ReplaceTile | Assets/ProjectorUtility/Scripts/Controller/ProjectorUtilityController.cs:419-427 | a mask or uv-shift subscription's effect: the tile is replaced, `UpdateBlend` runs, the invariant holds, and narrowest values that were current keep their values, since no blend changed |
| Controller.ProjectorUtilityController.SetEdgeMask | Assets/ProjectorUtility/Scripts/Controller/ProjectorUtilityController.cs:419-422 | the tile gets the new edge mask; a write of the held value changes nothing; any other refreshes the buffer and the narrowest values; the invariant is kept |
| Controller.ProjectorUtilityController.SetCornerMask | Assets/ProjectorUtility/Scripts/Controller/ProjectorUtilityController.cs:423-426 | the tile gets the new corner mask; a write of the held value changes nothing; any other refreshes the buffer and the narrowest values; the invariant is kept |
| Controller.ProjectorUtilityController.SetUvShift | Assets/ProjectorUtility/Scripts/Controller/ProjectorUtilityController.cs:427 | the tile gets the new uv shift; a write of the held value changes nothing; any other refreshes the buffer and the narrowest values; the invariant is kept |
| Controller.ProjectorUtilityController.SetSymmetry | Assets/ProjectorUtility/Scripts/Controller/ProjectorUtilityController.cs:340 | the toggle sets `Symmetry` |
| Controller.ProjectorUtilityController.SetLerpedInputMode | Assets/ProjectorUtility/Scripts/Controller/ProjectorUtilityController.cs:341 | the toggle sets `LerpedInputMode` |
| Controller.ProjectorUtilityController.EnterNumOfCol | Assets/ProjectorUtility/Scripts/Controller/ProjectorUtilityController.cs:336 | a column count of 30 or more, or an unchanged one, leaves the counts, the tiles, the four narrowest values and the buffer as they are; any other becomes the column count (raised to 1) and rebuilds the grid with the rows kept |
| Controller.ProjectorUtilityController.EnterNumOfRow | Assets/ProjectorUtility/Scripts/Controller/ProjectorUtilityController.cs:337 | a row count of 30 or more, or an unchanged one, leaves the counts, the tiles, the four narrowest values and the buffer as they are; any other becomes the row count (raised to 1) and rebuilds the grid with the columns kept |
| XmlStorageData.SetError | Assets/Common/XmlStorage/Scripts/Components/Data/_DataElement.cs:61-69 | `Set` raises nothing exactly when the key is non-null and non-empty, the value non-null and the type name non-null and non-empty; otherwise the first failing check in the order key, value, type raises its exception with the source's arguments |
| XmlStorageData.SetTypeError | Assets/Common/XmlStorage/Scripts/Components/Data/_DataElement.cs:53 | a null `Type` raises `NullReferenceException` before any check; otherwise the `Type` overload raises what the string overload raises for `type.FullName` |
| XmlStorageData.DataElement.Allocated | Assets/Common/XmlStorage/Scripts/Components/Data/_DataElement.cs:45 | a new object has every field `null` before its constructor body runs |
| XmlStorageData.DataElement.Set | Assets/Common/XmlStorage/Scripts/Components/Data/_DataElement.cs:61-73 | the raised exception is `SetError`'s; when one is raised no field changes, otherwise `Key`, `Value` and `TypeName` equal the arguments |
| XmlStorageData.DataElement.SetType | Assets/Common/XmlStorage/Scripts/Components/Data/_DataElement.cs:53 | the `Type` overload raises `SetTypeError`'s exception, changes nothing when it raises, and otherwise stores `type.FullName` as the type name |
| XmlStorageData.DataElement.New | Assets/Common/XmlStorage/Scripts/Components/Data/_DataElement.cs:45 | the string constructor throws exactly the exception `Set` raises; a constructed element is new and holds the arguments |
| XmlStorageData.DataElement.NewWithType | Assets/Common/XmlStorage/Scripts/Components/Data/_DataElement.cs:37 | the `Type` constructor throws exactly `SetTypeError`'s exception; a constructed element holds the arguments with `type.FullName` as its type name |

## Left out

- The Unity and UniRx wiring of the controller: tabs, `SetTabSystem`, `Instantiate` and
  `Destroy`, and the subscriptions between views and models. This is UI plumbing; only
  the handlers' effects on the model are kept. The X and Y sliders of a corner mask or
  of the uv shift each write a new `Vector2` that keeps the other coordinate; the
  model's setters take the whole `Vector2`.
- `BlendingHeight`, `BlendingWidth` and the `Min*Blend*` accessors are left out. They
  multiply by `Screen.height` or `Screen.width`, a value of the running player.
- The GPU side of `ProjectorUtilityBlender` is left out: the `Material`, the
  `ComputeBuffer`'s lifetime and `SetData`, the `SetInt` and `SetFloat` uniforms,
  `Graphics.Blit` and `OnRenderImage`. The upload is modelled as the record sequence the
  buffer receives.
- The persistence entities (`ScreenSettingEntity`, `CommonSettingEntity`, the mask
  entities) and `XmlStorage`/`XmlSaver` are not part of this model. The values they read
  come in as parameters: `load` yields a new tile's stored values, and the controller's
  constructor takes the stored common settings. That covers two defects, which the model
  does not reflect:
  - `bottomRightMask` is saved under the key of `bottomMask`;
  - `LerpedInputMode` defaults to true at first load and to false on `Load`.
- The `Blackness`, `Curve` and `Brightness` settings are left out. They only reach the
  shader.
- `DataElement`'s default constructor is left out because it draws a fresh `Guid`.
  `GetType` and the `ValueType` property are left out because they use reflection and
  assembly loading. A `System.Type` is reduced to its `FullName`.
- IEEE-754 single precision is not modelled; a `float` is a `real`. In particular:
  - `FloorToInt(x / (1f / cols))` is `floor(x * cols)`;
  - the float `%` of the left- and right-edge handlers is the integer `%` on a non-negative id;
  - the non-lerped branch's running sum is computed as
    `x + leftBlends - rightBlends`. That is exact over the reals but not in floats.
- GetAdjustedPosition: in the source the uv-shift read comes after the loops. In the
  model, a failure of either yields `IndexOutOfRange`. A C# exception is a single
  outcome, so nothing observable is lost.
- BuildScreenSetting: raising a count to 1 writes the reactive property, and that write
  re-enters `BuildScreenSetting` through its subscription. The nested call and the
  outer one finish in the same state, so the model runs it once.
- Controller.ProjectorUtilityController.SetBlend: assumes UniRx's `ReactiveProperty`
  does not notify subscribers of a write equal to the current value. UniRx is not part
  of this model. Under that assumption the neighbour's echo back onto the edited edge
  stops at once. The same assumption makes a mask or uv-shift write of the held value
  change nothing (`SetEdgeMask`, `SetCornerMask`, `SetUvShift`).
- The `int.Parse` of the count input fields is left out. `EnterNumOfCol` and
  `EnterNumOfRow` take the parsed integer. A string that does not parse throws in the
  source.
- `Start` is split into the constructor (the `CommonSettingEntity` built from the store)
  and the `Start` method (building the grid, then zeroing the narrowest values).
- Tiles are values in a sequence, not shared objects. The model therefore has no
  aliasing between the controller's list and the views' references to the same
  entities.
- Controller.ProjectorUtilityController.GetAdjustedPosition: requires the grid invariant
  `GridReady()` and `NumOfScreen == cols * rows`, which `Start` and every later event
  keep. The model therefore leaves out a call before `Start`. There the float division
  `1.0f / 0` is +Infinity, so `currentCol` and `currentRow` are 0, the sentinel
  `screenID >= 0` fires, and the source returns `(1, 1)`.
- Controller.ProjectorUtilityController.NormalizedBlendHeight: requires `GridReady()`,
  so the model leaves out a call before `Start`. There `_colScreens` and `_rowScreens`
  are 0 and the list is empty (ProjectorUtilityController.cs:35, 38). The source then
  always throws `ArgumentOutOfRangeException`: a `col` of 1 or more is clamped to 0 and
  the loop reads index -1, and a smaller `col` becomes 1 and the loop reads index 0.
- Controller.ProjectorUtilityController.NormalizedBlendWidth: requires `GridReady()`,
  so the model leaves out a call before `Start`. There the source returns 0 without
  throwing: the row is clamped to 0 or 1, and the loop from `0 * row - 0` below
  `0 * row` never runs.
