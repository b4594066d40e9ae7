/**
 * The level editor's screen state: an immutable record holding the loading
 * flag, the grid of tiles, the edit mode and the selected brush.
 */
module EditorState {
  import opened Tiles

  const Rows: nat := 8
  const Columns: nat := 8

  /** What a paint does to a cell. */
  datatype EditMode = Floor | Walls | Objects | Erase

  /** The modes in declaration order, as the mode selector lists them. */
  const EditModeEntries: seq<EditMode> := [EditMode.Floor, EditMode.Walls, EditMode.Objects, EditMode.Erase]

  /** What the grid shows in one cell. */
  datatype TileUiState = TileUiState(tile: Tile)

  /** Rows of cells, addressed as `tiles[row][col]`. */
  type Grid = seq<seq<TileUiState>>

  /** A full Rows x Columns grid. */
  ghost predicate IsGrid(tiles: Grid) {
    |tiles| == Rows && forall r :: 0 <= r < |tiles| ==> |tiles[r]| == Columns
  }

  /** Two grids with the same shape. */
  ghost predicate SameShape(a: Grid, b: Grid) {
    |a| == |b| && forall r :: 0 <= r < |a| ==> |a[r]| == |b[r]|
  }

  /** The grid a new level starts from: every cell the default tile. */
  function DefaultTiles(): (g: Grid)
    ensures IsGrid(g)
    ensures forall r, c :: 0 <= r < |g| && 0 <= c < |g[r]| ==> g[r][c].tile == Tile(TileType.Floor, WallMask.None)
  {
    seq(Rows, _ => seq(Columns, _ => TileUiState(Tile())))
  }

  /** The editor's state; the defaults are the state of a freshly opened editor. */
  datatype LevelEditorUiState = LevelEditorUiState(
    isLoading: bool := false,
    tiles: Grid := DefaultTiles(),
    editMode: EditMode := EditMode.Floor,
    selectedTile: TileType := TileType.Floor,
    selectedWallMask: WallMask := WallMask.None
  )

  /** Grids of equal shape whose cells agree are equal. */
  lemma GridsEqual(a: Grid, b: Grid)
    requires SameShape(a, b)
    requires forall r, c :: 0 <= r < |a| && 0 <= c < |a[r]| ==> a[r][c] == b[r][c]
    ensures a == b
  {
    forall r | 0 <= r < |a|
      ensures a[r] == b[r]
    {
      assert |a[r]| == |b[r]|;
      assert forall c :: 0 <= c < |a[r]| ==> a[r][c] == b[r][c];
    }
  }

  /** A fresh editor is idle, shows the default grid, and paints floor tiles without walls. */
  lemma DefaultState()
    ensures LevelEditorUiState() == LevelEditorUiState(false, DefaultTiles(), EditMode.Floor, TileType.Floor, WallMask.None)
    ensures IsGrid(LevelEditorUiState().tiles)
  {
  }

  /** The mode list names each of the four modes exactly once. */
  lemma EditModeEntriesComplete(m: EditMode)
    ensures m in EditModeEntries
    ensures |EditModeEntries| == 4
    ensures forall i, j :: 0 <= i < j < |EditModeEntries| ==> EditModeEntries[i] != EditModeEntries[j]
  {
  }
}
