/** Turning a mouse click in the 600x600 window into a move on the board. */
module Click {
  import opened Board
  import opened Game

  const ScreenSize := 600

  /** Side of one board cell in pixels. */
  const CellSize := ScreenSize / GridSize

  /** The board index of a pixel coordinate: the coordinate divided by the cell size, rounded down. */
  function CellIndex(pos: int): (i: int)
    ensures i * CellSize <= pos < i * CellSize + CellSize
    ensures 0 <= pos < ScreenSize <==> 0 <= i < GridSize
  {
    pos / CellSize
  }

  /** The cell of any click inside the window lies on the board. */
  lemma ClickIsOnBoard(x: int, y: int)
    requires 0 <= x < ScreenSize && 0 <= y < ScreenSize
    ensures OnBoard(CellIndex(y), CellIndex(x))
  {
  }

  /**
   * A click at pixel (x, y): the move at row y / CellSize, column x / CellSize is tried,
   * and that (row, col) pair is what goes to the peer, whether the move was accepted or not.
   */
  method OnClick(game: Gomoku, x: int, y: int) returns (sent: (int, int))
    requires game.Valid()
    requires 0 <= x < ScreenSize && 0 <= y < ScreenSize
    modifies game, game.board
    ensures game.Valid()
    ensures sent == (CellIndex(y), CellIndex(x))
    ensures game.Model() == Move(old(game.Model()), sent.0, sent.1)
  {
    var col := x / CellSize;
    var row := y / CellSize;
    ClickIsOnBoard(x, y);
    game.MakeMove(row, col);
    sent := (row, col);
  }
}
