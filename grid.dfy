/**
 * The static tile grid of a level and what a probe rectangle finds in it
 * (game.js:76-78, 100-124).
 */
module Grid {
  import opened Geometry

  /** A tile; `Empty` stands for the source's `undefined` cell. */
  datatype Cell = Empty | Wall | Lava

  /** The ceiling of `x`, written through `Floor`. */
  function Ceil(x: real): (r: int)
    ensures x <= r as real < x + 1.0
  {
    -((-x).Floor)
  }

  /** The length of the longest row, or 0 when there is no row. */
  function MaxRowLength<T>(rows: seq<seq<T>>): (r: nat)
    ensures forall i :: 0 <= i < |rows| ==> |rows[i]| <= r
    ensures rows == [] ==> r == 0
    ensures rows != [] ==> exists i :: 0 <= i < |rows| && |rows[i]| == r
  {
    if rows == [] then 0
    else
      var rest := MaxRowLength(rows[1..]);
      if |rows[0]| < rest then rest else |rows[0]|
  }

  /** The cell at row `r`, column `c`; a short row reads as empty past its end. */
  function CellAt(grid: seq<seq<Cell>>, r: nat, c: nat): Cell
    requires r < |grid|
  {
    if c < |grid[r]| then grid[r][c] else Empty
  }

  /** The first non-empty cell of row `r` among columns `c .. c1-1`, or `Empty`. */
  function FirstInRow(grid: seq<seq<Cell>>, r: nat, c: nat, c1: int): Cell
    requires r < |grid|
    decreases c1 - c
  {
    if c1 <= c then Empty
    else if CellAt(grid, r, c) != Empty then CellAt(grid, r, c)
    else FirstInRow(grid, r, c + 1, c1)
  }

  /** The first non-empty cell, in row-major order, of rows `r .. r1-1` and columns `c0 .. c1-1`. */
  function FirstInRows(grid: seq<seq<Cell>>, r: nat, r1: int, c0: nat, c1: int): Cell
    requires r1 <= |grid|
    decreases r1 - r
  {
    if r1 <= r then Empty
    else
      var found := FirstInRow(grid, r, c0, c1);
      if found != Empty then found else FirstInRows(grid, r + 1, r1, c0, c1)
  }

  /** A probe that leaves the grid at the left, the top or the right. */
  predicate OutsideSides(width: nat, probe: Box) {
    probe.Left() < 0.0 || probe.Top() < 0.0 || probe.Right() > width as real
  }

  /**
   * What a level of the given grid and width reports for a probe: a wall at
   * the sides and the top, lava below the bottom, else the first non-empty cell
   * the probe covers, its edges rounded outwards.
   */
  function ObstacleIn(grid: seq<seq<Cell>>, width: nat, probe: Box): Cell {
    if OutsideSides(width, probe) then Wall
    else if probe.Bottom() > |grid| as real then Lava
    else FirstInRows(grid, probe.Top().Floor, Ceil(probe.Bottom()), probe.Left().Floor, Ceil(probe.Right()))
  }

  lemma {:induction false} FirstInRowSpec(grid: seq<seq<Cell>>, r: nat, c: nat, c1: int)
    requires r < |grid|
    ensures FirstInRow(grid, r, c, c1) == Empty <==>
              forall j: nat :: c <= j < c1 ==> CellAt(grid, r, j) == Empty
    ensures FirstInRow(grid, r, c, c1) != Empty ==>
              exists j: nat :: c <= j < c1 && CellAt(grid, r, j) == FirstInRow(grid, r, c, c1) &&
                forall k: nat :: c <= k < j ==> CellAt(grid, r, k) == Empty
    decreases c1 - c
  {
    if c < c1 && CellAt(grid, r, c) == Empty {
      FirstInRowSpec(grid, r, c + 1, c1);
    }
  }

  /**
   * The scan of rows `r .. r1-1` finds the first non-empty cell in row-major
   * order, and finds nothing exactly when every covered cell is empty.
   */
  lemma {:induction false} FirstInRowsSpec(grid: seq<seq<Cell>>, r: nat, r1: int, c0: nat, c1: int)
    requires r1 <= |grid|
    ensures FirstInRows(grid, r, r1, c0, c1) == Empty <==>
              forall i: nat, j: nat :: r <= i < r1 && c0 <= j < c1 ==> CellAt(grid, i, j) == Empty
    ensures FirstInRows(grid, r, r1, c0, c1) != Empty ==>
              exists i: nat, j: nat :: r <= i < r1 && c0 <= j < c1 &&
                CellAt(grid, i, j) == FirstInRows(grid, r, r1, c0, c1) &&
                forall k: nat, l: nat :: r <= k < r1 && c0 <= l < c1 && (k < i || (k == i && l < j)) ==>
                  CellAt(grid, k, l) == Empty
    decreases r1 - r
  {
    if r < r1 {
      FirstInRowSpec(grid, r, c0, c1);
      FirstInRowsSpec(grid, r + 1, r1, c0, c1);
    }
  }

  /** Any probe that leaves the grid at the left, the top or the right meets a wall, whatever its bottom. */
  lemma ObstacleAtSides(grid: seq<seq<Cell>>, width: nat, probe: Box)
    requires probe.Left() < 0.0 || probe.Top() < 0.0 || probe.Right() > width as real
    ensures ObstacleIn(grid, width, probe) == Wall
  {
  }

  /** A probe inside the sides that reaches below the last row meets lava. */
  lemma ObstacleBelow(grid: seq<seq<Cell>>, width: nat, probe: Box)
    requires !OutsideSides(width, probe) && probe.Bottom() > |grid| as real
    ensures ObstacleIn(grid, width, probe) == Lava
  {
  }

  /**
   * For a probe within the grid, the scanned window of rows and columns lies
   * inside the grid, and the result is the first non-empty cell of that window
   * in row-major order, or `Empty` when every cell of it is empty.
   */
  lemma ObstacleInside(grid: seq<seq<Cell>>, width: nat, probe: Box)
    requires !OutsideSides(width, probe) && probe.Bottom() <= |grid| as real
    ensures var r0, r1 := probe.Top().Floor, Ceil(probe.Bottom());
            var c0, c1 := probe.Left().Floor, Ceil(probe.Right());
            var found := ObstacleIn(grid, width, probe);
            0 <= r0 && r1 <= |grid| && 0 <= c0 && c1 <= width &&
            (found == Empty <==> forall i: nat, j: nat :: r0 <= i < r1 && c0 <= j < c1 ==> CellAt(grid, i, j) == Empty) &&
            (found != Empty ==>
               exists i: nat, j: nat :: r0 <= i < r1 && c0 <= j < c1 && CellAt(grid, i, j) == found &&
                 forall k: nat, l: nat :: r0 <= k < r1 && c0 <= l < c1 && (k < i || (k == i && l < j)) ==>
                   CellAt(grid, k, l) == Empty)
  {
    FirstInRowsSpec(grid, probe.Top().Floor, Ceil(probe.Bottom()), probe.Left().Floor, Ceil(probe.Right()));
  }
}
