/**
 * The game engine the environment drives. Its own rules (placement order,
 * win lines) are not part of this model: the engine is reduced to its
 * interface, a nine-cell board, a `game_over` flag and a `winner_symbol`,
 * and the engine's answer to a move is supplied by the caller as a
 * `MoveEffect`.
 */
module GameEngine {
  import opened Wrappers
  import opened Agents
  import opened Board

  /**
   * What one call of the engine's `move` does: the value it leaves in the
   * target cell, and the terminal status it reports afterwards.
   */
  datatype MoveEffect = MoveEffect(mark: int, gameOver: bool, winner: Option<Agent>)

  class Game {
    var board: Grid
    var gameOver: bool
    var winner: Option<Agent>

    /** A new game: empty board, not over, no winner. */
    constructor ()
      ensures board == EmptyGrid() && !gameOver && winner == None
    {
      board := EmptyGrid();
      gameOver := false;
      winner := None;
    }

    /**
     * `move(row, col)`: only the target cell of the board may change, and
     * the terminal status becomes the one the engine reports.
     */
    method Move(row: int, col: int, effect: MoveEffect)
      requires 0 <= row < 3 && 0 <= col < 3
      modifies this
      ensures board == old(board)[Ravel(row, col) := effect.mark]
      ensures gameOver == effect.gameOver && winner == effect.winner
    {
      board := board[Ravel(row, col) := effect.mark];
      gameOver := effect.gameOver;
      winner := effect.winner;
    }
  }
}
