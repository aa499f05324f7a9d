/**
 * Worked games, proved from the rules: the first move of a game, and a race along the
 * two top rows in which four stones in a row do not win and the fifth does.
 */
module Scenarios {
  import opened Board
  import opened Game

  /** The opening move at the centre: X's stone lands there and O is to move. */
  lemma FirstMoveAtCentre()
    ensures var s := Move(NewGame(), 7, 7);
      s.cells[7][7] == Stone('X') && s.current == Player('O') && s.winner == None
  {
    var g := Place(EmptyGrid(), 7, 7, Stone('X'));
    assert !Wins(g, 7, 7, 'X');
  }

  /** X holds row 0, columns 0 .. nx - 1, O holds row 1, columns 0 .. no - 1; all else is empty. */
  function TwoRows(nx: int, no: int): (g: Grid)
    ensures WellFormed(g)
  {
    seq(GridSize, i => seq(GridSize, j =>
      if i == 0 && 0 <= j < nx then Stone('X') else if i == 1 && 0 <= j < no then Stone('O') else Empty))
  }

  /** X plays row 0 and O plays row 1, left to right, turn by turn: move t is (t % 2, t / 2). */
  function TopRowsMoves(): (moves: seq<(int, int)>)
    ensures AllOnBoard(moves)
  {
    seq(9, t => (t % 2, t / 2))
  }

  /** Every axis through X's new stone (0, n) counts at most n + 1, short of five. */
  lemma XRowShort(n: int)
    requires 0 <= n <= 3
    ensures !Wins(Place(TwoRows(n, n), 0, n, Stone('X')), 0, n, 'X')
  {
    var g := Place(TwoRows(n, n), 0, n, Stone('X'));
    assert Count(g, 0, n, 1, 0, 'X') <= 1 + n;
    assert Count(g, 0, n, 0, 1, 'X') <= 1 + n;
    assert Count(g, 0, n, 1, 1, 'X') <= 1 + n;
    assert Count(g, 0, n, 1, -1, 'X') <= 1 + n;
  }

  /** Every axis through O's new stone (1, n) counts at most n + 1, short of five. */
  lemma ORowShort(n: int)
    requires 0 <= n <= 3
    ensures !Wins(Place(TwoRows(n + 1, n), 1, n, Stone('O')), 1, n, 'O')
  {
    var g := Place(TwoRows(n + 1, n), 1, n, Stone('O'));
    assert Count(g, 1, n, 1, 0, 'O') <= 1 + n;
    assert Count(g, 1, n, 0, 1, 'O') <= 1 + n;
    assert Count(g, 1, n, 1, 1, 'O') <= 1 + n;
    assert Count(g, 1, n, 1, -1, 'O') <= 1 + n;
  }

  /** X's stone number n + 1 on row 0 does not win while n < 4: the turn passes to O. */
  lemma XExtends(n: int)
    requires 0 <= n <= 3
    ensures Move(State(TwoRows(n, n), Players[0], None), 0, n) == State(TwoRows(n + 1, n), Players[1], None)
  {
    GridsEqual(Place(TwoRows(n, n), 0, n, Stone('X')), TwoRows(n + 1, n));
    XRowShort(n);
  }

  /** O's stone number n + 1 on row 1 does not win while n < 4: the turn passes to X. */
  lemma OExtends(n: int)
    requires 0 <= n <= 3
    ensures Move(State(TwoRows(n + 1, n), Players[1], None), 1, n) == State(TwoRows(n + 1, n + 1), Players[0], None)
  {
    GridsEqual(Place(TwoRows(n + 1, n), 1, n, Stone('O')), TwoRows(n + 1, n + 1));
    ORowShort(n);
  }

  /** X's fifth stone on row 0 wins, and X keeps the turn. */
  lemma XCompletesFive()
    ensures Move(State(TwoRows(4, 4), Players[0], None), 0, 4) == State(TwoRows(5, 4), Players[0], Some(Players[0]))
  {
    var g := Place(TwoRows(4, 4), 0, 4, Stone('X'));
    GridsEqual(g, TwoRows(5, 4));
    assert Count(g, 0, 4, Directions[1].0, Directions[1].1, 'X') == 5;
  }

  /** From k stones each, the moves up to m stones each lead to m stones each, X to move, no winner. */
  lemma {:induction false} RaceTo(k: int, m: int, moves: seq<(int, int)>)
    requires 0 <= k <= m <= 4
    requires moves == TopRowsMoves()[2 * k..2 * m]
    ensures AllOnBoard(moves)
    ensures Play(State(TwoRows(k, k), Players[0], None), moves) == State(TwoRows(m, m), Players[0], None)
    decreases m - k
  {
    if k < m {
      var s0 := State(TwoRows(k, k), Players[0], None);
      var s1 := State(TwoRows(k + 1, k), Players[1], None);
      var s2 := State(TwoRows(k + 1, k + 1), Players[0], None);
      var rest := moves[2..];
      assert moves[0] == (0, k) && moves[1] == (1, k);
      assert rest == TopRowsMoves()[2 * (k + 1)..2 * m];
      RaceTo(k + 1, m, rest);
      assert Play(s0, moves) == Play(s2, rest) by {
        XExtends(k);
        OExtends(k);
        PlayFirst(s0, moves);
        assert moves[1..][1..] == rest;
        PlayFirst(s1, moves[1..]);
      }
    }
  }

  /**
   * After eight moves each player has four in a row and nobody has won; the ninth move
   * gives X five in a row and the win.
   */
  lemma TopRowsRace()
    ensures Play(NewGame(), TopRowsMoves()[..8]) == State(TwoRows(4, 4), Player('X'), None)
    ensures Play(NewGame(), TopRowsMoves()).winner == Some(Player('X'))
  {
    var moves := TopRowsMoves();
    GridsEqual(NewGame().cells, TwoRows(0, 0));
    RaceTo(0, 4, moves[..8]);
    XCompletesFive();
    PlayFirst(State(TwoRows(4, 4), Players[0], None), moves[8..]);
    assert |moves[8..][1..]| == 0;
    PlayConcat(NewGame(), moves[..8], moves[8..]);
    assert moves[..8] + moves[8..] == moves;
  }
}
