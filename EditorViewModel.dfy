/**
 * The level editor's view model: the paint and brush handlers as pure
 * transitions on the state record, and the view model object that holds the
 * current state and applies one transition per handler call.
 */
module EditorViewModel {
  import opened Tiles
  import opened EditorState

  // ---------------------------------------------------------------------
  // Painting one cell

  /** The tile a paint leaves in a cell that held `cell`, for the mode and brush of `s`. */
  function PaintedTile(cell: Tile, s: LevelEditorUiState): (t: Tile)
    ensures s.editMode != EditMode.Walls ==> t.tileType == s.selectedTile
    ensures s.editMode == EditMode.Walls ==> t.tileType == cell.tileType
    ensures s.editMode == EditMode.Walls && s.selectedWallMask != WallMask.None ==>
              t.walls.SideSet() == cell.walls.SideSet() + s.selectedWallMask.SideSet()
    ensures (s.editMode == EditMode.Walls && s.selectedWallMask == WallMask.None) || s.editMode == EditMode.Erase ==>
              t.walls.SideSet() == {}
    ensures s.editMode == EditMode.Floor || s.editMode == EditMode.Objects ==> t.walls == cell.walls
  {
    var tileType := if s.editMode != EditMode.Walls then s.selectedTile else cell.tileType;
    var walls :=
      match s.editMode
      case Walls => if s.selectedWallMask == WallMask.None then WallMask.None else cell.walls.With(s.selectedWallMask)
      case Erase => WallMask.None
      case _ => cell.walls;
    WithIsUnion(cell.walls, s.selectedWallMask);
    NoneHasNothing(WallMask.None);
    Tile(tileType, walls)
  }

  /** Painting a cell a second time with the same brush changes nothing more. */
  lemma PaintedTileIdempotent(cell: Tile, s: LevelEditorUiState)
    ensures PaintedTile(PaintedTile(cell, s), s) == PaintedTile(cell, s)
  {
    WithIdempotent(cell.walls, s.selectedWallMask);
  }

  /** The grid after painting cell (row, col); other cells are kept as they are. */
  function PaintTiles(tiles: Grid, row: int, col: int, s: LevelEditorUiState): (r: Grid)
    ensures SameShape(r, tiles)
    ensures forall i, j :: 0 <= i < |r| && 0 <= j < |r[i]| ==>
              r[i][j] == if i == row && j == col then TileUiState(PaintedTile(tiles[i][j].tile, s)) else tiles[i][j]
  {
    seq(|tiles|, i requires 0 <= i < |tiles| =>
      if i != row then
        tiles[i]
      else
        seq(|tiles[i]|, j requires 0 <= j < |tiles[i]| =>
          if j != col then tiles[i][j] else TileUiState(PaintedTile(tiles[i][j].tile, s))))
  }

  // ---------------------------------------------------------------------
  // The handlers as transitions

  /** onTilePaint: ignored while loading, otherwise repaints cell (row, col). */
  function Paint(s: LevelEditorUiState, row: int, col: int): (r: LevelEditorUiState)
    ensures r.isLoading == s.isLoading && r.editMode == s.editMode
    ensures r.selectedTile == s.selectedTile && r.selectedWallMask == s.selectedWallMask
    ensures SameShape(r.tiles, s.tiles)
    ensures s.isLoading ==> r == s
    ensures !s.isLoading ==> forall i, j :: 0 <= i < |r.tiles| && 0 <= j < |r.tiles[i]| ==>
              r.tiles[i][j] == if i == row && j == col then TileUiState(PaintedTile(s.tiles[i][j].tile, s)) else s.tiles[i][j]
  {
    if s.isLoading then s else s.(tiles := PaintTiles(s.tiles, row, col, s))
  }

  /** onEditModeSelected: choosing Erase also sets the tile brush to Empty. */
  function SelectEditMode(s: LevelEditorUiState, mode: EditMode): LevelEditorUiState {
    s.(editMode := mode, selectedTile := if mode == EditMode.Erase then TileType.Empty else s.selectedTile)
  }

  /** onTileTypeSelected: choosing a tile kind drops the wall brush. */
  function SelectTileType(s: LevelEditorUiState, tileType: TileType): LevelEditorUiState {
    s.(selectedTile := tileType, selectedWallMask := WallMask.None)
  }

  /** onWallMaskSelected. */
  function SelectWallMask(s: LevelEditorUiState, wallMask: WallMask): LevelEditorUiState {
    s.(selectedWallMask := wallMask)
  }

  // ---------------------------------------------------------------------
  // Saving

  /** The tiles handed to the exporter: the grid read row by row. */
  function Flatten(tiles: Grid): (r: seq<Tile>)
    ensures (forall i :: 0 <= i < |tiles| ==> |tiles[i]| == Columns) ==> |r| == |tiles| * Columns
  {
    if tiles == [] then [] else RowTiles(tiles[0]) + Flatten(tiles[1..])
  }

  /** The tiles of one row, left to right. */
  function RowTiles(cells: seq<TileUiState>): (r: seq<Tile>)
    ensures |r| == |cells|
    ensures forall j :: 0 <= j < |cells| ==> r[j] == cells[j].tile
  {
    seq(|cells|, j requires 0 <= j < |cells| => cells[j].tile)
  }

  /** What the exporter reports: the name of the saved document, or a failure. */
  datatype SaveOutcome = Saved(displayName: string) | SaveFailed

  /** The one-shot messages the screen shows as toasts. */
  datatype LevelEditorEvent = FileSaveResult(message: string) | FileLoadError(message: string)

  /** The message reported after a save. */
  function SaveMessage(outcome: SaveOutcome): (m: string)
    ensures outcome.Saved? ==> m == "Level saved to: " + outcome.displayName
    ensures outcome.SaveFailed? ==> m == "Failed to save level!"
  {
    match outcome
    case Saved(name) => "Level saved to: " + name
    case SaveFailed => "Failed to save level!"
  }

  // ---------------------------------------------------------------------
  // The view model object

  /** Holds the current state; each handler replaces it with a new record. */
  class LevelEditorViewModel {
    var uiState: LevelEditorUiState

    /** The grid always has its full shape. */
    ghost predicate Valid()
      reads this
    {
      IsGrid(uiState.tiles)
    }

    constructor ()
      ensures Valid()
      ensures uiState == LevelEditorUiState()
    {
      uiState := LevelEditorUiState();
    }

    method OnTilePaint(row: int, col: int)
      requires Valid()
      modifies this
      ensures Valid()
      ensures uiState == Paint(old(uiState), row, col)
    {
      uiState := Paint(uiState, row, col);
    }

    method OnEditModeSelected(mode: EditMode)
      requires Valid()
      modifies this
      ensures Valid()
      ensures uiState == SelectEditMode(old(uiState), mode)
    {
      uiState := SelectEditMode(uiState, mode);
    }

    method OnTileTypeSelected(tileType: TileType)
      requires Valid()
      modifies this
      ensures Valid()
      ensures uiState == SelectTileType(old(uiState), tileType)
    {
      uiState := SelectTileType(uiState, tileType);
    }

    method OnWallMaskSelected(wallMask: WallMask)
      requires Valid()
      modifies this
      ensures Valid()
      ensures uiState == SelectWallMask(old(uiState), wallMask)
    {
      uiState := SelectWallMask(uiState, wallMask);
    }

    /** The first half of onSaveTapped, up to the exporter call: snapshot the tiles and raise the loading flag. */
    method BeginSave() returns (tiles: seq<Tile>)
      requires Valid()
      modifies this
      ensures Valid()
      ensures tiles == Flatten(old(uiState).tiles) && |tiles| == Rows * Columns
      ensures uiState == old(uiState).(isLoading := true)
    {
      tiles := Flatten(uiState.tiles);
      uiState := uiState.(isLoading := true);
    }

    /** The second half of onSaveTapped, after the exporter returns: report and drop the loading flag. */
    method FinishSave(outcome: SaveOutcome) returns (event: LevelEditorEvent)
      requires Valid()
      modifies this
      ensures Valid()
      ensures event == FileSaveResult(SaveMessage(outcome))
      ensures uiState == old(uiState).(isLoading := false)
    {
      event := FileSaveResult(SaveMessage(outcome));
      uiState := uiState.(isLoading := false);
    }

    /**
     * onSaveTapped, with the exporter as the function `save` from the tiles
     * sent to the outcome it reports. The grid is never changed and the
     * loading flag is down afterwards whatever the outcome.
     */
    method OnSaveTapped(save: seq<Tile> -> SaveOutcome) returns (sent: seq<Tile>, event: LevelEditorEvent)
      requires Valid()
      modifies this
      ensures Valid()
      ensures sent == Flatten(old(uiState).tiles) && |sent| == Rows * Columns
      ensures event == FileSaveResult(SaveMessage(save(sent)))
      ensures uiState == old(uiState).(isLoading := false)
    {
      sent := BeginSave();
      assert uiState.isLoading;
      var outcome := save(sent);
      event := FinishSave(outcome);
    }
  }

  // ---------------------------------------------------------------------
  // Properties of the transitions

  /** A paint while loading leaves the whole state as it was. */
  lemma PaintWhileLoadingIgnored(s: LevelEditorUiState, row: int, col: int)
    requires s.isLoading
    ensures Paint(s, row, col) == s
  {
  }

  /** A paint outside the grid changes nothing. */
  lemma PaintOutOfRangeIgnored(s: LevelEditorUiState, row: int, col: int)
    requires !(0 <= row < |s.tiles| && 0 <= col < |s.tiles[row]|)
    ensures Paint(s, row, col) == s
  {
    var r := Paint(s, row, col);
    GridsEqual(r.tiles, s.tiles);
  }

  /** Painting the same cell twice gives the same state as painting it once. */
  lemma PaintIdempotent(s: LevelEditorUiState, row: int, col: int)
    ensures Paint(Paint(s, row, col), row, col) == Paint(s, row, col)
  {
    if !s.isLoading {
      var once := Paint(s, row, col);
      var twice := Paint(once, row, col);
      forall i, j | 0 <= i < |twice.tiles| && 0 <= j < |twice.tiles[i]|
        ensures twice.tiles[i][j] == once.tiles[i][j]
      {
        if i == row && j == col {
          PaintedTileIdempotent(s.tiles[i][j].tile, s);
        }
      }
      GridsEqual(twice.tiles, once.tiles);
    }
  }

  /** Selecting Erase and then painting a cell leaves an empty tile with no walls there. */
  lemma EraseThenPaint(s: LevelEditorUiState, row: int, col: int)
    requires !s.isLoading
    requires 0 <= row < |s.tiles| && 0 <= col < |s.tiles[row]|
    ensures Paint(SelectEditMode(s, EditMode.Erase), row, col).tiles[row][col].tile == Tile(TileType.Empty, WallMask.None)
  {
  }

  /**
   * In Erase mode a paint clears the walls and lays the selected kind, which
   * is Empty only because selecting Erase set it so.
   */
  lemma PaintErase(s: LevelEditorUiState, row: int, col: int)
    requires !s.isLoading && s.editMode == EditMode.Erase
    requires 0 <= row < |s.tiles| && 0 <= col < |s.tiles[row]|
    ensures Paint(s, row, col).tiles[row][col].tile == Tile(s.selectedTile, WallMask.None)
  {
  }

  /**
   * Each brush handler sets its own field: selecting a mode sets the tile
   * brush to Empty exactly when the mode is Erase (and keeps it otherwise),
   * selecting a tile kind drops the wall brush.
   */
  lemma BrushHandlersSetBrush(s: LevelEditorUiState, mode: EditMode, tileType: TileType, wallMask: WallMask)
    ensures SelectEditMode(s, mode).editMode == mode
    ensures mode == EditMode.Erase ==> SelectEditMode(s, mode).selectedTile == TileType.Empty
    ensures mode != EditMode.Erase ==> SelectEditMode(s, mode) == s.(editMode := mode)
    ensures SelectTileType(s, tileType).selectedTile == tileType
    ensures SelectTileType(s, tileType).selectedWallMask == WallMask.None
    ensures SelectWallMask(s, wallMask).selectedWallMask == wallMask
  {
  }

  /** In Floor or Objects mode a paint sets the selected kind and keeps the walls. */
  lemma PaintSetsKind(s: LevelEditorUiState, row: int, col: int)
    requires !s.isLoading && (s.editMode == EditMode.Floor || s.editMode == EditMode.Objects)
    requires 0 <= row < |s.tiles| && 0 <= col < |s.tiles[row]|
    ensures Paint(s, row, col).tiles[row][col].tile == Tile(s.selectedTile, s.tiles[row][col].tile.walls)
  {
  }

  /**
   * In Walls mode a paint keeps the kind and adds the brush's sides to the
   * cell's walls; the None brush clears them instead.
   */
  lemma PaintWalls(s: LevelEditorUiState, row: int, col: int)
    requires !s.isLoading && s.editMode == EditMode.Walls
    requires 0 <= row < |s.tiles| && 0 <= col < |s.tiles[row]|
    ensures Paint(s, row, col).tiles[row][col].tile.tileType == s.tiles[row][col].tile.tileType
    ensures s.selectedWallMask == WallMask.None ==> Paint(s, row, col).tiles[row][col].tile.walls == WallMask.None
    ensures s.selectedWallMask != WallMask.None ==>
              Paint(s, row, col).tiles[row][col].tile.walls.SideSet()
              == s.tiles[row][col].tile.walls.SideSet() + s.selectedWallMask.SideSet()
  {
  }

  /** Choosing a tile kind and painting in Floor mode lays that kind and keeps the walls. */
  lemma SelectTileThenPaint(s: LevelEditorUiState, tileType: TileType, row: int, col: int)
    requires !s.isLoading && s.editMode == EditMode.Floor
    requires 0 <= row < |s.tiles| && 0 <= col < |s.tiles[row]|
    ensures Paint(SelectTileType(s, tileType), row, col).tiles[row][col].tile == Tile(tileType, s.tiles[row][col].tile.walls)
  {
  }

  /** The brush handlers never touch the grid or the loading flag. */
  lemma BrushHandlersKeepGrid(s: LevelEditorUiState, mode: EditMode, tileType: TileType, wallMask: WallMask)
    ensures SelectEditMode(s, mode).tiles == s.tiles && SelectEditMode(s, mode).isLoading == s.isLoading
    ensures SelectTileType(s, tileType).tiles == s.tiles && SelectTileType(s, tileType).isLoading == s.isLoading
    ensures SelectWallMask(s, wallMask).tiles == s.tiles && SelectWallMask(s, wallMask).isLoading == s.isLoading
    ensures SelectEditMode(s, mode).selectedWallMask == s.selectedWallMask
    ensures SelectTileType(s, tileType).editMode == s.editMode
    ensures SelectWallMask(s, wallMask) == s.(selectedWallMask := wallMask)
  {
  }

  /** Flattening a full grid lists cell (r, c) at position r * Columns + c. */
  lemma {:induction false} FlattenIsRowMajor(tiles: Grid)
    requires forall i :: 0 <= i < |tiles| ==> |tiles[i]| == Columns
    ensures |Flatten(tiles)| == |tiles| * Columns
    ensures forall r, c :: 0 <= r < |tiles| && 0 <= c < Columns ==> Flatten(tiles)[r * Columns + c] == tiles[r][c].tile
  {
    if tiles != [] {
      FlattenIsRowMajor(tiles[1..]);
      var head := RowTiles(tiles[0]);
      var rest := Flatten(tiles[1..]);
      assert Flatten(tiles) == head + rest;
      forall r, c | 0 <= r < |tiles| && 0 <= c < Columns
        ensures Flatten(tiles)[r * Columns + c] == tiles[r][c].tile
      {
        if r > 0 {
          assert r * Columns + c == Columns + ((r - 1) * Columns + c);
          assert tiles[1..][r - 1] == tiles[r];
        }
      }
    }
  }

  /** Saving a full grid sends Rows * Columns tiles in row-major order. */
  lemma SavedTilesAreRowMajor(s: LevelEditorUiState)
    requires IsGrid(s.tiles)
    ensures |Flatten(s.tiles)| == Rows * Columns
    ensures forall r, c :: 0 <= r < Rows && 0 <= c < Columns ==> Flatten(s.tiles)[r * Columns + c] == s.tiles[r][c].tile
  {
    FlattenIsRowMajor(s.tiles);
  }
}
