/**
 * The cell grid behind a Qt `QTableWidget`, as the pages of
 * frontend/gui/pages/ use it: a fixed number of rows and columns of
 * items, written one cell at a time by `setItem`.
 */
module TableGrid {

  /** A grid of cells, row by row. */
  type Grid<T> = seq<seq<T>>

  /** Exactly `rows` rows of exactly `cols` cells each. */
  predicate Shaped<T>(g: Grid<T>, rows: nat, cols: nat) {
    |g| == rows && forall r :: 0 <= r < |g| ==> |g[r]| == cols
  }

  /** A freshly made table: every cell `empty`. */
  function Blank<T>(rows: nat, cols: nat, empty: T): (g: Grid<T>)
    ensures Shaped(g, rows, cols)
    ensures forall r, c :: 0 <= r < rows && 0 <= c < cols ==> g[r][c] == empty
  {
    seq(rows, r => seq(cols, c => empty))
  }

  /**
   * `setItem(r, c, item)`: cell (r, c) holds `item` and every other cell is
   * as it was; a position outside the grid changes nothing.
   */
  function SetCell<T>(g: Grid<T>, r: int, c: int, item: T): (h: Grid<T>)
    ensures |h| == |g| && forall i :: 0 <= i < |g| ==> |h[i]| == |g[i]|
    ensures forall i, j :: 0 <= i < |g| && 0 <= j < |g[i]| ==>
      h[i][j] == (if i == r && j == c then item else g[i][j])
    ensures forall i :: 0 <= i < |g| && i != r ==> h[i] == g[i]
    ensures !(0 <= r < |g| && 0 <= c < |g[r]|) ==> h == g
  {
    if 0 <= r < |g| && 0 <= c < |g[r]| then g[r := g[r][c := item]] else g
  }
}
