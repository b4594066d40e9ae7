/**
 * The level editor screen's logic once the drawing is stripped away: mapping
 * a pointer position to a grid cell, the drag handlers that paint each cell
 * at most once per stroke, and the brushes the palette offers per mode.
 */
module EditorScreen {
  import opened Tiles
  import opened EditorState
  import opened EditorViewModel

  datatype Option<T> = None | Some(value: T)

  /** A grid coordinate (row, column). */
  type Cell = (int, int)

  // ---------------------------------------------------------------------
  // From a position to a cell

  /** Conversion of a non-integral value to an integer, rounding toward zero. */
  function TruncateToInt(q: real): (n: int)
    ensures 0.0 <= q ==> 0 <= n && n as real <= q < n as real + 1.0
    ensures q < 0.0 ==> n <= 0 && n as real - 1.0 < q <= n as real
  {
    if 0.0 <= q then q.Floor else -((-q).Floor)
  }

  /**
   * The cell under grid-local position (x, y) for cells of side `cellSizePx`,
   * or None when the cells have no size yet or the position is off the 8 x 8 grid.
   */
  function OffsetToCell(x: real, y: real, cellSizePx: real): (r: Option<Cell>)
    ensures cellSizePx <= 0.0 ==> r == None
    ensures r.Some? ==> 0 <= r.value.0 < 8 && 0 <= r.value.1 < 8
  {
    if cellSizePx <= 0.0 then None
    else
      var row := TruncateToInt(y / cellSizePx);
      var col := TruncateToInt(x / cellSizePx);
      if !(0 <= row < 8) || !(0 <= col < 8) then None else Some((row, col))
  }

  /** Every cell OffsetToCell yields addresses a cell of the editor's grid. */
  lemma OffsetToCellInGrid(x: real, y: real, cellSizePx: real, tiles: Grid)
    requires IsGrid(tiles)
    requires OffsetToCell(x, y, cellSizePx).Some?
    ensures var (row, col) := OffsetToCell(x, y, cellSizePx).value;
            0 <= row < |tiles| && 0 <= col < |tiles[row]|
  {
  }

  /** Dividing by a positive size and multiplying back gives the value again. */
  lemma DivideThenScale(v: real, size: real)
    requires 0.0 < size
    ensures v / size * size == v
  {
  }

  /** Multiplying by a positive factor keeps a non-strict order. */
  lemma ScaleKeepsLe(a: real, b: real, size: real)
    requires 0.0 < size && a <= b
    ensures a * size <= b * size
  {
    assert b * size - a * size == (b - a) * size;
  }

  /** Multiplying by a positive factor keeps a strict order. */
  lemma ScaleKeepsLt(a: real, b: real, size: real)
    requires 0.0 < size && a < b
    ensures a * size < b * size
  {
    assert b * size - a * size == (b - a) * size;
  }

  /** A lower bound on a quotient bounds the dividend. */
  lemma BelowQuotient(a: real, v: real, size: real)
    requires 0.0 < size && a <= v / size
    ensures a * size <= v
  {
    ScaleKeepsLe(a, v / size, size);
    DivideThenScale(v, size);
  }

  /** An upper bound on a quotient bounds the dividend. */
  lemma AboveQuotient(a: real, v: real, size: real)
    requires 0.0 < size && v / size < a
    ensures v < a * size
  {
    ScaleKeepsLt(v / size, a, size);
    DivideThenScale(v, size);
  }

  /** A non-strict upper bound on a quotient bounds the dividend. */
  lemma AtMostQuotient(a: real, v: real, size: real)
    requires 0.0 < size && v / size <= a
    ensures v <= a * size
  {
    ScaleKeepsLe(v / size, a, size);
    DivideThenScale(v, size);
  }

  /** One coordinate inside the grid falls in the band of the cell its quotient names. */
  lemma CoordinateInBand(v: real, cellSizePx: real)
    requires 0.0 < cellSizePx && 0.0 <= v < 8.0 * cellSizePx
    ensures var n := TruncateToInt(v / cellSizePx);
            0 <= n < 8 && n as real * cellSizePx <= v < (n + 1) as real * cellSizePx
  {
    if v / cellSizePx < 0.0 {
      AboveQuotient(0.0, v, cellSizePx);
      assert false;
    }
    if 8.0 <= v / cellSizePx {
      BelowQuotient(8.0, v, cellSizePx);
      assert false;
    }
    var n := TruncateToInt(v / cellSizePx);
    BelowQuotient(n as real, v, cellSizePx);
    AboveQuotient((n + 1) as real, v, cellSizePx);
  }

  /**
   * A position inside the grid's square is mapped to the cell whose square
   * contains it.
   */
  lemma OffsetToCellFindsCell(x: real, y: real, cellSizePx: real)
    requires 0.0 < cellSizePx
    requires 0.0 <= x < 8.0 * cellSizePx && 0.0 <= y < 8.0 * cellSizePx
    ensures OffsetToCell(x, y, cellSizePx).Some?
    ensures var (row, col) := OffsetToCell(x, y, cellSizePx).value;
            row as real * cellSizePx <= y < (row + 1) as real * cellSizePx &&
            col as real * cellSizePx <= x < (col + 1) as real * cellSizePx
  {
    CoordinateInBand(y, cellSizePx);
    CoordinateInBand(x, cellSizePx);
  }

  /**
   * Because the quotient is rounded toward zero, a position less than one
   * cell above the grid still lands in row 0.
   */
  lemma OffsetAboveGridLandsInTopRow(x: real, y: real, cellSizePx: real)
    requires 0.0 < cellSizePx
    requires 0.0 <= x < 8.0 * cellSizePx
    requires -cellSizePx < y < 0.0
    ensures OffsetToCell(x, y, cellSizePx).Some? && OffsetToCell(x, y, cellSizePx).value.0 == 0
  {
    CoordinateInBand(x, cellSizePx);
    if 0.0 <= y / cellSizePx {
      BelowQuotient(0.0, y, cellSizePx);
      assert false;
    }
    if y / cellSizePx <= -1.0 {
      AtMostQuotient(-1.0, y, cellSizePx);
      assert false;
    }
  }

  // ---------------------------------------------------------------------
  // One drag stroke

  /** The cell a drag event forwards to the paint handler, given the cells painted so far. */
  function Forward(painted: set<Cell>, cell: Option<Cell>): (r: Option<Cell>)
    ensures r.Some? <==> cell.Some? && cell.value !in painted
    ensures r.Some? ==> r == cell
  {
    if cell.Some? && cell.value !in painted then cell else None
  }

  /** The stroke's set after a drag event. */
  function Mark(painted: set<Cell>, cell: Option<Cell>): (r: set<Cell>)
    ensures cell.Some? ==> r == painted + {cell.value}
    ensures cell.None? ==> r == painted
  {
    if cell.Some? then painted + {cell.value} else painted
  }

  /** The cells forwarded, in order, for a run of drag events starting from the set `painted`. */
  function StrokeFrom(painted: set<Cell>, events: seq<Option<Cell>>): (r: seq<Cell>)
    ensures |r| <= |events|
    decreases |events|
  {
    if events == [] then []
    else
      (match Forward(painted, events[0]) case Some(c) => [c] case None => [])
      + StrokeFrom(Mark(painted, events[0]), events[1..])
  }

  /** The cells forwarded for a whole stroke: the start event, then the moves. */
  function Stroke(start: Option<Cell>, moves: seq<Option<Cell>>): (r: seq<Cell>)
    ensures |r| <= 1 + |moves|
  {
    StrokeFrom({}, [start] + moves)
  }

  /** The cells of a run of events, in order, with the events that hit no cell dropped. */
  function Touched(events: seq<Option<Cell>>): (r: seq<Cell>)
    ensures forall c :: c in r <==> Some(c) in events
  {
    if events == [] then []
    else
      var rest := Touched(events[1..]);
      assert forall e :: e in events <==> e == events[0] || e in events[1..];
      (match events[0] case Some(c) => [c] case None => []) + rest
  }

  /**
   * Over a run of drag events, each forwarded cell is new to the stroke, no
   * cell is forwarded twice, and every cell touched and not yet painted is
   * forwarded.
   */
  lemma {:induction false} StrokeFromPaintsOnce(painted: set<Cell>, events: seq<Option<Cell>>)
    ensures forall i, j :: 0 <= i < j < |StrokeFrom(painted, events)| ==> StrokeFrom(painted, events)[i] != StrokeFrom(painted, events)[j]
    ensures forall c :: c in StrokeFrom(painted, events) <==> Some(c) in events && c !in painted
    decreases |events|
  {
    if events != [] {
      var head := match Forward(painted, events[0]) case Some(c) => [c] case None => [];
      var marked := Mark(painted, events[0]);
      var rest := StrokeFrom(marked, events[1..]);
      StrokeFromPaintsOnce(marked, events[1..]);
      assert StrokeFrom(painted, events) == head + rest;
      assert forall e :: e in events <==> e == events[0] || e in events[1..];
      forall c | c in head
        ensures c !in rest
      {
        assert c in marked;
      }
    }
  }

  /** In one stroke each touched cell is painted exactly once. */
  lemma StrokePaintsEachCellOnce(start: Option<Cell>, moves: seq<Option<Cell>>)
    ensures forall i, j :: 0 <= i < j < |Stroke(start, moves)| ==> Stroke(start, moves)[i] != Stroke(start, moves)[j]
    ensures forall c :: c in Stroke(start, moves) <==> c in Touched([start] + moves)
  {
    StrokeFromPaintsOnce({}, [start] + moves);
  }

  // ---------------------------------------------------------------------
  // What a stroke does to the editor state

  /** The state after the paint handler runs for each cell in turn. */
  function PaintAll(s: LevelEditorUiState, cells: seq<Cell>): LevelEditorUiState
    decreases |cells|
  {
    if cells == [] then s else PaintAll(Paint(s, cells[0].0, cells[0].1), cells[1..])
  }

  /** The grid with every cell of `cells` painted once with the brush of `s`. */
  function Repainted(s: LevelEditorUiState, cells: set<Cell>): (g: Grid)
    ensures SameShape(g, s.tiles)
  {
    seq(|s.tiles|, i requires 0 <= i < |s.tiles| =>
      seq(|s.tiles[i]|, j requires 0 <= j < |s.tiles[i]| =>
        if (i, j) in cells then TileUiState(PaintedTile(s.tiles[i][j].tile, s)) else s.tiles[i][j]))
  }

  /** Painting a run of cells repaints exactly the cells of the run, however often each occurs. */
  lemma {:induction false} PaintAllRepaints(s: LevelEditorUiState, cells: seq<Cell>)
    requires !s.isLoading
    ensures PaintAll(s, cells) == s.(tiles := Repainted(s, set c | c in cells))
    decreases |cells|
  {
    if cells == [] {
      assert (set c | c in cells) == {};
      GridsEqual(Repainted(s, {}), s.tiles);
    } else {
      var (row, col) := cells[0];
      var p := Paint(s, row, col);
      var rest := cells[1..];
      PaintAllRepaints(p, rest);
      var lhs := Repainted(p, set c | c in rest);
      var rhs := Repainted(s, set c | c in cells);
      forall i, j | 0 <= i < |lhs| && 0 <= j < |lhs[i]|
        ensures lhs[i][j] == rhs[i][j]
      {
        assert (i, j) in cells <==> (i, j) == (row, col) || (i, j) in rest;
        if (i, j) == (row, col) {
          PaintedTileIdempotent(s.tiles[i][j].tile, s);
        }
      }
      GridsEqual(lhs, rhs);
    }
  }

  /** Nothing is painted while a load or save is in progress. */
  lemma {:induction false} PaintAllWhileLoading(s: LevelEditorUiState, cells: seq<Cell>)
    requires s.isLoading
    ensures PaintAll(s, cells) == s
    decreases |cells|
  {
    if cells != [] {
      PaintAllWhileLoading(Paint(s, cells[0].0, cells[0].1), cells[1..]);
    }
  }

  /**
   * The de-duplication never changes the picture: a stroke leaves the same
   * state as painting every touched cell each time the pointer touched it.
   */
  lemma StrokeSameAsPaintingEveryTouch(s: LevelEditorUiState, start: Option<Cell>, moves: seq<Option<Cell>>)
    ensures PaintAll(s, Stroke(start, moves)) == PaintAll(s, Touched([start] + moves))
  {
    if s.isLoading {
      PaintAllWhileLoading(s, Stroke(start, moves));
      PaintAllWhileLoading(s, Touched([start] + moves));
    } else {
      StrokePaintsEachCellOnce(start, moves);
      PaintAllRepaints(s, Stroke(start, moves));
      PaintAllRepaints(s, Touched([start] + moves));
      assert (set c | c in Stroke(start, moves)) == (set c | c in Touched([start] + moves));
    }
  }

  // ---------------------------------------------------------------------
  // The grid's gesture handlers

  /**
   * The grid composable's remembered state: the cells painted in the current
   * drag, the measured cell size and the grid's position in its parent.
   * Each handler returns the cell it forwards to the paint handler, if any.
   */
  class LevelEditorGrid {
    var paintedDuringDrag: set<Cell>
    var cellSizePx: real
    var gridOffsetX: real
    var gridOffsetY: real

    constructor ()
      ensures paintedDuringDrag == {} && cellSizePx == 0.0
      ensures gridOffsetX == 0.0 && gridOffsetY == 0.0
    {
      paintedDuringDrag := {};
      cellSizePx := 0.0;
      gridOffsetX, gridOffsetY := 0.0, 0.0;
    }

    /** The grid square was laid out with the given width: a cell is an eighth of it. */
    method OnSizeChanged(width: int)
      modifies this`cellSizePx
      ensures cellSizePx == width as real / 8.0
    {
      cellSizePx := width as real / 8.0;
    }

    /** The grid was placed at (x, y) in its parent. */
    method OnGloballyPositioned(x: real, y: real)
      modifies this`gridOffsetX, this`gridOffsetY
      ensures gridOffsetX == x && gridOffsetY == y
    {
      gridOffsetX, gridOffsetY := x, y;
    }

    /** A drag starts at (x, y): the stroke set is emptied before the first cell is considered. */
    method OnDragStart(x: real, y: real) returns (paint: Option<Cell>)
      modifies this`paintedDuringDrag
      ensures var cell := OffsetToCell(x - gridOffsetX, y - gridOffsetY, cellSizePx);
              paint == cell && paintedDuringDrag == Mark({}, cell)
    {
      paintedDuringDrag := {};
      var cell := OffsetToCell(x - gridOffsetX, y - gridOffsetY, cellSizePx);
      paint := None;
      if cell.Some? && cell.value !in paintedDuringDrag {
        paintedDuringDrag := paintedDuringDrag + {cell.value};
        paint := cell;
      }
    }

    /** The pointer moved to (x, y): its cell is forwarded only the first time the stroke reaches it. */
    method OnDrag(x: real, y: real) returns (paint: Option<Cell>)
      modifies this`paintedDuringDrag
      ensures var cell := OffsetToCell(x - gridOffsetX, y - gridOffsetY, cellSizePx);
              paint == Forward(old(paintedDuringDrag), cell) &&
              paintedDuringDrag == Mark(old(paintedDuringDrag), cell)
    {
      var cell := OffsetToCell(x - gridOffsetX, y - gridOffsetY, cellSizePx);
      paint := None;
      if cell.Some? && cell.value !in paintedDuringDrag {
        paintedDuringDrag := paintedDuringDrag + {cell.value};
        paint := cell;
      }
    }

    /** The drag ended: the stroke set is emptied and nothing is painted. */
    method OnDragEnd()
      modifies this`paintedDuringDrag
      ensures paintedDuringDrag == {}
    {
      paintedDuringDrag := {};
    }

    /** The drag was cancelled: the stroke set is emptied and nothing is painted. */
    method OnDragCancel()
      modifies this`paintedDuringDrag
      ensures paintedDuringDrag == {}
    {
      paintedDuringDrag := {};
    }

    /** A tap on cell (row, col) paints it directly; the stroke set is neither read nor changed. */
    method OnTap(row: int, col: int) returns (paint: Cell)
      ensures paint == (row, col)
    {
      paint := (row, col);
    }
  }

  // ---------------------------------------------------------------------
  // The palette

  /** What the palette row offers for a mode. */
  datatype Palette = NoChoices | TileChoices(tileTypes: seq<TileType>) | WallChoices(wallMasks: seq<WallMask>)

  /** The tile kinds a mode lets the user pick. */
  function TilesForMode(mode: EditMode): (r: seq<TileType>)
    ensures |r| <= 2 && TileType.Empty !in r
    ensures r == [] <==> mode == EditMode.Walls || mode == EditMode.Erase
  {
    match mode
    case Floor => [TileType.Floor, TileType.Hole]
    case Walls => []
    case Objects => [TileType.Marble, TileType.Goal]
    case Erase => []
  }

  /** The wall brushes the Walls palette lists, in order. */
  const WallBrushes: seq<WallMask> := [WallMask.Up, WallMask.Right, WallMask.Down, WallMask.Left, WallMask.All, WallMask.None]

  /** The palette row for a mode. */
  function PaletteFor(mode: EditMode): (r: Palette)
    ensures r.NoChoices? <==> mode == EditMode.Erase
    ensures r.WallChoices? <==> mode == EditMode.Walls
    ensures r.WallChoices? ==> r.wallMasks == WallBrushes
    ensures r.TileChoices? ==> r.tileTypes == TilesForMode(mode) && r.tileTypes != []
  {
    match mode
    case Erase => NoChoices
    case Walls => WallChoices(WallBrushes)
    case _ => TileChoices(TilesForMode(mode))
  }

  /** The label of a wall brush chip; any mask that is not one of the named ones reads "None". */
  function WallBrushLabel(m: WallMask): (r: string)
    ensures m == WallMask.Up ==> r == "Up"
    ensures m == WallMask.Right ==> r == "Right"
    ensures m == WallMask.Down ==> r == "Down"
    ensures m == WallMask.Left ==> r == "Left"
    ensures m == WallMask.All ==> r == "All"
    ensures m !in WallBrushes || m == WallMask.None ==> r == "None"
  {
    if m == WallMask.Up then "Up"
    else if m == WallMask.Right then "Right"
    else if m == WallMask.Down then "Down"
    else if m == WallMask.Left then "Left"
    else if m == WallMask.All then "All"
    else "None"
  }

  /**
   * Floor mode offers floor and hole, Objects mode marble and goal, Walls and
   * Erase no tile kind; so every kind but Empty is offered by exactly one
   * mode, and Empty by none (it is only reached through Erase).
   */
  lemma TileChoicesPartitionKinds(t: TileType)
    ensures PaletteFor(EditMode.Floor) == TileChoices([TileType.Floor, TileType.Hole])
    ensures PaletteFor(EditMode.Objects) == TileChoices([TileType.Marble, TileType.Goal])
    ensures PaletteFor(EditMode.Walls) == WallChoices(WallBrushes) && PaletteFor(EditMode.Erase) == NoChoices
    ensures t == TileType.Empty <==> forall m :: t !in TilesForMode(m)
    ensures forall m, m' :: t in TilesForMode(m) && t in TilesForMode(m') ==> m == m'
  {
    if t != TileType.Empty {
      var m := if t == TileType.Floor || t == TileType.Hole then EditMode.Floor else EditMode.Objects;
      assert t in TilesForMode(m);
    }
    forall m, m' | t in TilesForMode(m) && t in TilesForMode(m')
      ensures m == m'
    {
      assert !m.Walls? && !m.Erase? && !m'.Walls? && !m'.Erase?;
    }
  }

  /**
   * The wall palette lists the four single sides, All and None, each once and
   * each under its own label; All holds every side and None clears.
   */
  lemma WallBrushesNamed()
    ensures |WallBrushes| == 6
    ensures forall i, j :: 0 <= i < j < |WallBrushes| ==> WallBrushes[i] != WallBrushes[j]
    ensures forall i, j :: 0 <= i < j < |WallBrushes| ==> WallBrushLabel(WallBrushes[i]) != WallBrushLabel(WallBrushes[j])
    ensures forall x :: x in WallMask.Sides ==> x in WallBrushes && x.SideSet() == {x}
    ensures WallMask.All.SideSet() == WallMask.Sides && WallMask.None.SideSet() == {}
  {
    SidesAreSingleBits();
    AllHasEverySide();
    NoneHasNothing(WallMask.None);
  }
}
