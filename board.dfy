/**
 * The 3x3 board seen as its row-major flattening (nine cells, 0 = empty),
 * the mapping between action indices and (row, column), and the ten-slot
 * action mask derived from a board.
 */
module Board {

  /** A board flattened in row-major order: cell (r, c) is at index 3 * r + c. */
  type Grid = b: seq<int> | |b| == 9 witness [0, 0, 0, 0, 0, 0, 0, 0, 0]

  /** The action that means "pass": the tenth slot of every action mask. */
  const Pass: int := 9

  /** A freshly created game's board. */
  function EmptyGrid(): (g: Grid)
    ensures forall i :: 0 <= i < 9 ==> g[i] == 0
  {
    [0, 0, 0, 0, 0, 0, 0, 0, 0]
  }

  /**
   * The row and column of cell `index`, as `np.unravel_index(index, (3, 3))`
   * computes them in C (row-major) order. Flattening the pair again gives
   * back the index.
   */
  function Unravel(index: int): (rc: (int, int))
    requires 0 <= index < 9
    ensures 0 <= rc.0 < 3 && 0 <= rc.1 < 3
    ensures 3 * rc.0 + rc.1 == index
  {
    (index / 3, index % 3)
  }

  /** The row-major index of cell (row, col). */
  function Ravel(row: int, col: int): (index: int)
    requires 0 <= row < 3 && 0 <= col < 3
    ensures 0 <= index < 9
    ensures Unravel(index) == (row, col)
  {
    3 * row + col
  }

  /** 1.0 for a free cell, 0.0 for an occupied one. */
  function FreeFlag(cell: int): real
  {
    if cell != 0 then 0.0 else 1.0
  }

  /**
   * The mask that `__create_mask(toMoveNext)` builds: nine cell slots
   * followed by the pass slot. The agent to move next gets one flag per
   * free cell and a closed pass slot; the other agent gets closed cells
   * and an open pass slot.
   */
  function MaskOf(board: Grid, toMoveNext: bool): (m: seq<real>)
    ensures |m| == 10
  {
    if toMoveNext then
      seq(9, i requires 0 <= i < 9 => FreeFlag(board[i])) + [0.0]
    else
      seq(9, i => 0.0) + [1.0]
  }

  /** A mask that lets its agent play exactly the free cells of `board`, and not pass. */
  ghost predicate IsMoverMask(board: Grid, m: seq<real>)
  {
    |m| == 10 && m[9] == 0.0 &&
    forall i :: 0 <= i < 9 ==> (m[i] == 1.0 <==> board[i] == 0) && (m[i] == 0.0 <==> board[i] != 0)
  }

  /** A mask that lets its agent only pass. */
  ghost predicate IsPassOnlyMask(m: seq<real>)
  {
    |m| == 10 && m[9] == 1.0 && forall i :: 0 <= i < 9 ==> m[i] == 0.0
  }

  /**
   * The mask is consistent with the board: the next mover may play exactly
   * the empty cells and may not pass; the waiting agent may only pass.
   * The two kinds of mask are never confused.
   */
  lemma MaskMatchesBoard(board: Grid, toMoveNext: bool)
    ensures toMoveNext ==> IsMoverMask(board, MaskOf(board, toMoveNext))
    ensures !toMoveNext ==> IsPassOnlyMask(MaskOf(board, toMoveNext))
    ensures IsMoverMask(board, MaskOf(board, toMoveNext)) <==> toMoveNext
  {
  }
}
