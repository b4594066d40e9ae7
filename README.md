# Marble Lab level editor, modelled in Dafny

Marble Lab is an Android level editor for a marble-maze game. The user
paints an 8 x 8 grid of tiles by tapping or dragging. An edit mode (Floor,
Walls, Objects, Erase) and a brush (a tile kind or a wall mask) decide what a
paint does. The level is saved as the row-major list of its tiles.

This project models the editor's logic:

- `Tile.dfy` (module `Tiles`) covers the value types of `data/Tile.kt`:
  - `TileType`, `Tile`, and `WallMask`, a set of the four wall sides packed
    into bits.
  - The mask operations `has` (any-of), `with` (union) and `without`. The
    model gives `without` both as the code writes it and in its corrected form.
- `EditorState.dfy` (module `EditorState`) covers the state record of
  `ui/LevelEditorUiState.kt`: its defaults, the default 8 x 8 grid and the
  four edit modes.
- `EditorViewModel.dfy` (module `EditorViewModel`) covers the view model of
  `ui/LevelEditorViewModel.kt`:
  - Each handler is a pure transition on the state record.
  - The class `LevelEditorViewModel` holds the current state, with one method
    per handler.
  - `onSaveTapped` raises the loading flag, hands the flattened grid to the
    exporter, reports the outcome and lowers the flag.
- `EditorScreen.dfy` (module `EditorScreen`) covers the logic of
  `ui/LevelEditorScreen.kt` once the drawing is stripped away:
  - `offsetToCell`, on real numbers, with Kotlin's `toInt` rounding toward zero.
  - The grid's gesture handlers, as the class `LevelEditorGrid`. It holds the
    set of cells painted in the current drag; each handler returns the cell it
    passes on to the paint handler.
  - The palette each mode offers.
  - Lemmas about whole drag strokes.

Choices in the code a reader might not expect:

- The per-stroke de-duplication set lives in the screen's drag handlers
  (`ui/LevelEditorScreen.kt:153-182`). A tap calls the paint handler directly
  and never touches the set (`ui/LevelEditorScreen.kt:210-212`). The model
  keeps this split. `StrokeSameAsPaintingEveryTouch` shows that the
  de-duplication never changes the resulting grid.
- The name `without` promises set difference, but the code computes a bitwise
  AND (`data/Tile.kt:29`); see "Findings".
- Selecting Erase forces the tile brush to Empty
  (`ui/LevelEditorViewModel.kt:74`). A paint in Erase mode lays whatever kind
  is selected (`ui/LevelEditorViewModel.kt:44-46`), so it is Empty only through
  that choice. The model does the same.

The paths above are relative to `app/src/main/java/tech/rkanelabs/marblelab/`.

## Model

| member | source | states |
|---|---|---|
| Tiles.DefaultTile | app/src/main/java/tech/rkanelabs/marblelab/data/Tile.kt:3-6 | a default tile is (Floor, None), so it holds no wall side |
| Tiles.WallMask.SideSet | app/src/main/java/tech/rkanelabs/marblelab/data/Tile.kt:17-24 | the sides a mask holds are drawn from the four named single-side masks |
| Tiles.SidesAreSingleBits | app/src/test/java/tech/rkanelabs/marblelab/data/WallMaskTest.kt:18-25 | Up, Right, Down and Left are the bits 1, 2, 4 and 8; each side holds itself and no other side, so its side set is just itself |
| Tiles.NoneHasNothing | app/src/test/java/tech/rkanelabs/marblelab/data/WallMaskTest.kt:10-16 | None holds no side; it shares no bit with any mask, in either direction |
| Tiles.AllHasEverySide | app/src/test/java/tech/rkanelabs/marblelab/data/WallMaskTest.kt:35-41 | All, the union of the four sides, is 15 and holds every side |
| Tiles.HasIsAnyOf | app/src/test/java/tech/rkanelabs/marblelab/data/WallMaskTest.kt:43-57 | `m.has(q)` holds exactly when the two masks share a side (any-of, not all-of), in both directions |
| Tiles.SideSetDetermines | app/src/main/java/tech/rkanelabs/marblelab/data/Tile.kt:17 | two masks that hold the same sides are equal, so a mask is the set of its sides |
| Tiles.WallMask.Has | app/src/main/java/tech/rkanelabs/marblelab/data/Tile.kt:27 | the any-of bit test; its meaning on side sets, in both directions, is stated by HasIsAnyOf |
| Tiles.WallMask.With | app/src/main/java/tech/rkanelabs/marblelab/data/Tile.kt:28 | the result holds a named side iff either mask does |
| Tiles.WallMask.WithoutAsWritten | app/src/main/java/tech/rkanelabs/marblelab/data/Tile.kt:29 | `without` as written: the result holds a named side iff both masks do |
| Tiles.WallMask.Without | app/src/main/java/tech/rkanelabs/marblelab/data/Tile.kt:29 | the corrected `without`: the result holds a named side iff the first mask does and the second does not |
| Tiles.WithIsUnion | app/src/test/java/tech/rkanelabs/marblelab/data/WallMaskTest.kt:27-33 | the side set of `a.with(b)` is the union of the side sets of `a` and `b` |
| Tiles.WithCommutes | app/src/main/java/tech/rkanelabs/marblelab/data/Tile.kt:28 | `with` is commutative |
| Tiles.WithAssociates | app/src/main/java/tech/rkanelabs/marblelab/data/Tile.kt:28 | `with` is associative |
| Tiles.WithIdempotent | app/src/main/java/tech/rkanelabs/marblelab/data/Tile.kt:28 | adding a mask to itself, or adding the same mask again, changes nothing |
| Tiles.NoneIsWithIdentity | app/src/main/java/tech/rkanelabs/marblelab/data/Tile.kt:28 | None is the identity of `with` on both sides |
| Tiles.WithKeepsSides | app/src/main/java/tech/rkanelabs/marblelab/data/Tile.kt:28 | `with` never removes a side; the result holds the first operand unless that is None |
| Tiles.WithoutAsWrittenIsIntersection | app/src/main/java/tech/rkanelabs/marblelab/data/Tile.kt:29 | the side set of `without` as written is the intersection of the two side sets, so it keeps the sides it is asked to remove |
| Tiles.WithoutAsWrittenKeepsNamedSide | app/src/main/java/tech/rkanelabs/marblelab/data/Tile.kt:29 | removing Up from {Up, Right} as written yields Up; the corrected `without` yields Right |
| Tiles.WithoutIsDifference | app/src/main/java/tech/rkanelabs/marblelab/data/Tile.kt:29 | the side set of the corrected `without` is the difference of the two side sets |
| Tiles.WithThenWithout | app/src/main/java/tech/rkanelabs/marblelab/data/Tile.kt:28-29 | adding sides and then removing them (corrected `without`) is the same as removing them alone |
| EditorState.DefaultTiles | app/src/main/java/tech/rkanelabs/marblelab/ui/LevelEditorUiState.kt:25-31 | the default grid has 8 rows of 8 cells, and every cell is (Floor, None) |
| EditorState.DefaultState | app/src/main/java/tech/rkanelabs/marblelab/ui/LevelEditorUiState.kt:17-23 | a fresh state is not loading, shows the default grid, is in Floor mode and paints Floor with no walls |
| EditorState.EditModeEntriesComplete | app/src/main/java/tech/rkanelabs/marblelab/ui/LevelEditorUiState.kt:10-15 | the mode list holds each of the four modes exactly once |
| EditorState.GridsEqual | app/src/main/java/tech/rkanelabs/marblelab/ui/LevelEditorUiState.kt:35-37 | grids are equal when their shapes and their cells agree (structural equality) |
| EditorViewModel.PaintedTile | app/src/main/java/tech/rkanelabs/marblelab/ui/LevelEditorViewModel.kt:43-59 | the painted cell's kind is the selected kind except in Walls mode, where it is kept. In Walls mode the walls are the old sides plus the brush's sides, or none for the None brush. Erase clears the walls; Floor and Objects keep them |
| EditorViewModel.PaintedTileIdempotent | app/src/main/java/tech/rkanelabs/marblelab/ui/LevelEditorViewModel.kt:43-59 | repainting a painted tile with the same brush changes nothing |
| EditorViewModel.PaintTiles | app/src/main/java/tech/rkanelabs/marblelab/ui/LevelEditorViewModel.kt:37-42 | the new grid has the same shape; cell (row, col) is repainted and every other cell is kept |
| EditorViewModel.Paint | app/src/main/java/tech/rkanelabs/marblelab/ui/LevelEditorViewModel.kt:31-67 | while loading the state is returned unchanged; otherwise only cell (row, col) changes, and the loading flag, mode and brush are kept |
| EditorViewModel.LevelEditorViewModel.constructor | app/src/main/java/tech/rkanelabs/marblelab/ui/LevelEditorViewModel.kt:25 | the view model starts from the default state, whose grid is full |
| EditorViewModel.LevelEditorViewModel.OnTilePaint | app/src/main/java/tech/rkanelabs/marblelab/ui/LevelEditorViewModel.kt:31-67 | the new state is `Paint` of the old one, and the grid keeps its 8 x 8 shape |
| EditorViewModel.LevelEditorViewModel.OnEditModeSelected | app/src/main/java/tech/rkanelabs/marblelab/ui/LevelEditorViewModel.kt:69-77 | the new state is the mode transition of the old one; the grid keeps its shape |
| EditorViewModel.LevelEditorViewModel.OnTileTypeSelected | app/src/main/java/tech/rkanelabs/marblelab/ui/LevelEditorViewModel.kt:79-87 | the new state is the tile-kind transition of the old one; the grid keeps its shape |
| EditorViewModel.LevelEditorViewModel.OnWallMaskSelected | app/src/main/java/tech/rkanelabs/marblelab/ui/LevelEditorViewModel.kt:89-96 | the new state is the wall-brush transition of the old one; the grid keeps its shape |
| EditorViewModel.LevelEditorViewModel.BeginSave | app/src/main/java/tech/rkanelabs/marblelab/ui/LevelEditorViewModel.kt:100-104 | the tiles sent are the flattening of the grid before the call, 64 of them; only the loading flag changes, to true |
| EditorViewModel.LevelEditorViewModel.FinishSave | app/src/main/java/tech/rkanelabs/marblelab/ui/LevelEditorViewModel.kt:105-112 | the event reports the outcome's message; only the loading flag changes, to false |
| EditorViewModel.LevelEditorViewModel.OnSaveTapped | app/src/main/java/tech/rkanelabs/marblelab/ui/LevelEditorViewModel.kt:98-113 | the exporter gets the 64 tiles of the grid in row-major order; the event reports its outcome; afterwards the state equals the old one with the loading flag down, whatever the outcome |
| EditorViewModel.SaveMessage | app/src/main/java/tech/rkanelabs/marblelab/ui/LevelEditorViewModel.kt:105-111 | success reports "Level saved to: " followed by the document name; failure reports "Failed to save level!" |
| EditorViewModel.RowTiles | app/src/main/java/tech/rkanelabs/marblelab/ui/LevelEditorViewModel.kt:104 | a row's tiles, in the row's order and of its length |
| EditorViewModel.Flatten | app/src/main/java/tech/rkanelabs/marblelab/ui/LevelEditorViewModel.kt:104 | flattening a grid of full rows gives rows x 8 tiles |
| EditorViewModel.FlattenIsRowMajor | app/src/main/java/tech/rkanelabs/marblelab/ui/LevelEditorViewModel.kt:104 | in the flattened grid, cell (r, c) sits at position r * 8 + c |
| EditorViewModel.SavedTilesAreRowMajor | app/src/main/java/tech/rkanelabs/marblelab/ui/LevelEditorViewModel.kt:100-104 | the saved tiles are 64, and cell (r, c) of the state's grid is at r * 8 + c |
| EditorViewModel.PaintWhileLoadingIgnored | app/src/main/java/tech/rkanelabs/marblelab/ui/LevelEditorViewModel.kt:32 | a paint while loading changes nothing |
| EditorViewModel.PaintOutOfRangeIgnored | app/src/main/java/tech/rkanelabs/marblelab/ui/LevelEditorViewModel.kt:37-42 | a paint outside the grid changes nothing |
| EditorViewModel.PaintIdempotent | app/src/main/java/tech/rkanelabs/marblelab/ui/LevelEditorViewModel.kt:37-59 | painting a cell twice gives the same state as painting it once |
| EditorViewModel.PaintErase | app/src/main/java/tech/rkanelabs/marblelab/ui/LevelEditorViewModel.kt:44-57 | in Erase mode the cell gets the selected kind (not a literal Empty) and no walls |
| EditorViewModel.EraseThenPaint | app/src/main/java/tech/rkanelabs/marblelab/ui/LevelEditorViewModel.kt:69-77 | selecting Erase and then painting leaves (Empty, None) in the cell |
| EditorViewModel.PaintSetsKind | app/src/main/java/tech/rkanelabs/marblelab/ui/LevelEditorViewModel.kt:44-58 | in Floor or Objects mode the cell gets the selected kind and keeps its walls |
| EditorViewModel.PaintWalls | app/src/main/java/tech/rkanelabs/marblelab/ui/LevelEditorViewModel.kt:44-56 | in Walls mode the kind is kept; the walls become None for the None brush and otherwise the old sides plus the brush's sides |
| EditorViewModel.SelectTileThenPaint | app/src/main/java/tech/rkanelabs/marblelab/ui/LevelEditorViewModel.kt:79-87 | picking a kind and painting in Floor mode lays that kind and keeps the walls |
| EditorViewModel.BrushHandlersSetBrush | app/src/main/java/tech/rkanelabs/marblelab/ui/LevelEditorViewModel.kt:69-96 | selecting a mode sets it, and sets the tile brush to Empty iff the mode is Erase; selecting a kind sets it and resets the wall brush to None; selecting a wall mask sets it |
| EditorViewModel.BrushHandlersKeepGrid | app/src/main/java/tech/rkanelabs/marblelab/ui/LevelEditorViewModel.kt:69-96 | the brush handlers never change the grid or the loading flag; selecting a wall mask changes nothing else |
| EditorScreen.TruncateToInt | app/src/main/java/tech/rkanelabs/marblelab/ui/LevelEditorScreen.kt:238-239 | the integer is the quotient rounded toward zero: within one below a non-negative value, within one above a negative one |
| EditorScreen.OffsetToCell | app/src/main/java/tech/rkanelabs/marblelab/ui/LevelEditorScreen.kt:233-242 | no cell while the cell size is not positive; any cell returned has row and column in [0, 8) |
| EditorScreen.OffsetToCellInGrid | app/src/main/java/tech/rkanelabs/marblelab/ui/LevelEditorScreen.kt:240-241 | every cell returned addresses a cell of a full grid |
| EditorScreen.CoordinateInBand | app/src/main/java/tech/rkanelabs/marblelab/ui/LevelEditorScreen.kt:238-240 | a coordinate inside the grid lies in the band of the cell index computed from it |
| EditorScreen.OffsetToCellFindsCell | app/src/main/java/tech/rkanelabs/marblelab/ui/LevelEditorScreen.kt:233-242 | a position inside the grid's square maps to the cell whose square contains it |
| EditorScreen.OffsetAboveGridLandsInTopRow | app/src/main/java/tech/rkanelabs/marblelab/ui/LevelEditorScreen.kt:238 | because `toInt` rounds toward zero, a position less than one cell above the grid still maps to row 0 |
| EditorScreen.Forward | app/src/main/java/tech/rkanelabs/marblelab/ui/LevelEditorScreen.kt:165-172 | a drag event forwards its cell iff it hits a cell not yet painted in the stroke |
| EditorScreen.Mark | app/src/main/java/tech/rkanelabs/marblelab/ui/LevelEditorScreen.kt:165-172 | a drag event adds the cell it hits to the stroke's set |
| EditorScreen.Touched | app/src/main/java/tech/rkanelabs/marblelab/ui/LevelEditorScreen.kt:161-174 | the cells a run of drag events hits are exactly the cells of its events that hit the grid |
| EditorScreen.StrokeFrom | app/src/main/java/tech/rkanelabs/marblelab/ui/LevelEditorScreen.kt:165-173 | the drag handlers over a run of events forward at most one cell per event; StrokeFromPaintsOnce states which cells and that none repeats |
| EditorScreen.Stroke | app/src/main/java/tech/rkanelabs/marblelab/ui/LevelEditorScreen.kt:161-174 | a whole stroke (start, then moves) forwards at most one cell per event; StrokePaintsEachCellOnce states which |
| EditorScreen.StrokeFromPaintsOnce | app/src/main/java/tech/rkanelabs/marblelab/ui/LevelEditorScreen.kt:165-172 | over a run of drag events no cell is forwarded twice; a cell is forwarded iff some event hits it and it was not already painted |
| EditorScreen.StrokePaintsEachCellOnce | app/src/main/java/tech/rkanelabs/marblelab/ui/LevelEditorScreen.kt:161-174 | in one stroke each touched cell is forwarded exactly once |
| EditorScreen.Repainted | app/src/main/java/tech/rkanelabs/marblelab/ui/LevelEditorViewModel.kt:37-59 | repainting a set of cells keeps the grid's shape |
| EditorScreen.PaintAllRepaints | app/src/main/java/tech/rkanelabs/marblelab/ui/LevelEditorViewModel.kt:31-67 | painting a run of cells in turn repaints each cell of the run once, however often it occurs, and keeps all other cells |
| EditorScreen.PaintAllWhileLoading | app/src/main/java/tech/rkanelabs/marblelab/ui/LevelEditorViewModel.kt:32 | no paint of a run takes effect while loading |
| EditorScreen.StrokeSameAsPaintingEveryTouch | app/src/main/java/tech/rkanelabs/marblelab/ui/LevelEditorScreen.kt:161-174 | a de-duplicated stroke leaves the same state as painting every cell each time the pointer touched it |
| EditorScreen.LevelEditorGrid.constructor | app/src/main/java/tech/rkanelabs/marblelab/ui/LevelEditorScreen.kt:153-155 | the stroke set starts empty, the cell size at 0 and the grid offset at the origin |
| EditorScreen.LevelEditorGrid.OnSizeChanged | app/src/main/java/tech/rkanelabs/marblelab/ui/LevelEditorScreen.kt:191-193 | the cell size becomes an eighth of the grid's width |
| EditorScreen.LevelEditorGrid.OnGloballyPositioned | app/src/main/java/tech/rkanelabs/marblelab/ui/LevelEditorScreen.kt:194-197 | the grid offset becomes the grid's position in its parent |
| EditorScreen.LevelEditorGrid.OnDragStart | app/src/main/java/tech/rkanelabs/marblelab/ui/LevelEditorScreen.kt:161-168 | the set is emptied before the first cell is considered: the cell under the pointer, if any, is forwarded and becomes the only member of the set |
| EditorScreen.LevelEditorGrid.OnDrag | app/src/main/java/tech/rkanelabs/marblelab/ui/LevelEditorScreen.kt:169-174 | the cell under the pointer is forwarded only if it is new to the stroke, and is added to the set |
| EditorScreen.LevelEditorGrid.OnDragEnd | app/src/main/java/tech/rkanelabs/marblelab/ui/LevelEditorScreen.kt:175-178 | the set is emptied and nothing is forwarded |
| EditorScreen.LevelEditorGrid.OnDragCancel | app/src/main/java/tech/rkanelabs/marblelab/ui/LevelEditorScreen.kt:179-182 | the set is emptied and nothing is forwarded |
| EditorScreen.LevelEditorGrid.OnTap | app/src/main/java/tech/rkanelabs/marblelab/ui/LevelEditorScreen.kt:210-212 | a tap forwards its own cell directly, without reading or changing the stroke set |
| EditorScreen.TilesForMode | app/src/main/java/tech/rkanelabs/marblelab/ui/LevelEditorScreen.kt:354-359 | a mode offers at most two tile kinds and never Empty; Walls and Erase offer none, Floor and Objects some |
| EditorScreen.PaletteFor | app/src/main/java/tech/rkanelabs/marblelab/ui/LevelEditorScreen.kt:371-386 | Erase gets the empty palette and Walls the wall brushes, each iff it is that mode; Floor and Objects get their non-empty tile kinds |
| EditorScreen.WallBrushLabel | app/src/main/java/tech/rkanelabs/marblelab/ui/LevelEditorScreen.kt:392-399 | Up, Right, Down, Left and All are labelled with their own names; None, and any mask not in the brush list, reads "None" |
| EditorScreen.TileChoicesPartitionKinds | app/src/main/java/tech/rkanelabs/marblelab/ui/LevelEditorScreen.kt:354-386 | Floor offers Floor and Hole, Objects offers Marble and Goal, Walls offers the wall brushes and Erase nothing; every kind but Empty is offered by exactly one mode, and Empty by none |
| EditorScreen.WallBrushesNamed | app/src/main/java/tech/rkanelabs/marblelab/ui/LevelEditorScreen.kt:377-399 | the wall palette lists Up, Right, Down, Left, All and None, each once and under distinct labels; each side is a single side, All holds all four and None holds none |

## Left out

- `Tiles.WallMask`: Kotlin stores the bits in a 32-bit `Int`. The model keeps only the four side bits (`bv4`), which is every value the editor builds. A mask is therefore within [0, 16) by its type; masks with higher bits are not modelled.
- `EditorScreen.OffsetToCell`: the positions and the cell size are Kotlin `Float`s. The model uses exact real numbers, so float rounding and `toInt` on NaN or infinities are not modelled.
- `EditorViewModel.LevelEditorViewModel.OnSaveTapped`: the exporter, which writes JSON to a document chosen by the user, is a function parameter returning success with a display name or failure. JSON encoding, content-resolver streams and the display-name lookup are not part of this model.
- Coroutines: each handler runs as one sequential step and the save returns its event instead of sending it on the events channel. A paint that arrives while a save is in flight can be expressed (`BeginSave`, then `OnTilePaint`, then `FinishSave`) and `PaintWhileLoadingIgnored` shows it is ignored, but no lemma covers concurrent interleavings or overlapping saves.
- Loading a level: the screen refers to load and new-level handlers that the view model does not define, so there is no load operation to model.
- Logging calls have no effect on state and are left out.
- The paint callback that the screen hands to the grid is modelled as the cell each gesture handler returns. The caller applies it with `OnTilePaint`; `StrokeSameAsPaintingEveryTouch` relates the two.
- Rendering is left out: tile drawing, wall lines, chip `selected` flags, the mode chips' labels, the spinner, previews and theming have no behaviour to state.
- `Tiles.WallMask.Has` carries no contract of its own: it is the bitwise test the source defines, and `HasIsAnyOf` states what it means for side sets.
- `EditorViewModel.SelectEditMode`, `EditorViewModel.SelectTileType` and `EditorViewModel.SelectWallMask` carry no contract of their own. What they do is stated by `BrushHandlersSetBrush` and `BrushHandlersKeepGrid`.

## Findings

| source | as written | input that shows it | evidently intended | confidence | as-written member | corrected member |
|---|---|---|---|---|---|---|
| app/src/main/java/tech/rkanelabs/marblelab/data/Tile.kt:29 | `without` returns `bits and mask.bits`, the sides common to both masks | `Up.with(Right).without(Up)` yields Up | the sides of the first mask that are not in the second (`bits and mask.bits.inv()`), so the result is Right | high; not executed | Tiles.WithoutAsWrittenKeepsNamedSide | Tiles.WithoutIsDifference |
