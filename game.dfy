/**
 * The game-state machine: a board, the player to move and an optional winner.
 * `State` and `Move` give the behaviour as values; class `Gomoku` is the mutable
 * object the game loop drives, and each of its methods is proved against them.
 */
module Game {
  import opened Board

  datatype Option<T> = None | Some(value: T)

  /** A player is known by the symbol it puts on the board (its display colour is left out). */
  datatype Player = Player(symbol: char)

  /** The two players, in creation order: X moves first. */
  const Players: seq<Player> := [Player('X'), Player('O')]

  /** The player who moves after `p`. */
  function Switched(p: Player): (q: Player)
    ensures q in Players
    ensures p in Players ==> q != p
  {
    if p == Players[0] then Players[1] else Players[0]
  }

  /** Switching twice gives the turn back. */
  lemma SwitchTwice(p: Player)
    requires p in Players
    ensures Switched(Switched(p)) == p
  {
  }

  datatype State = State(cells: Grid, current: Player, winner: Option<Player>)
  {
    ghost predicate Valid()
    {
      WellFormed(cells) && current in Players && (winner.Some? ==> winner.value in Players)
    }
  }

  /** The state of a newly created game. */
  function NewGame(): (s: State)
    ensures s.Valid()
  {
    State(EmptyGrid(), Players[0], None)
  }

  lemma NewGameIsEmpty()
    ensures forall i, j :: OnBoard(i, j) ==> NewGame().cells[i][j] == Empty
    ensures NewGame().current == Player('X') && NewGame().winner == None
  {
  }

  /** No stone of `s` has gone or changed in `t`, and a game already won has not changed at all. */
  ghost predicate Keeps(s: State, t: State)
    requires s.Valid() && t.Valid()
  {
    (forall i, j :: OnBoard(i, j) && s.cells[i][j] != Empty ==> t.cells[i][j] == s.cells[i][j]) &&
    (s.winner.Some? ==> t == s)
  }

  /**
   * A move at (row, col): accepted only on an empty cell of a game without a winner; it then
   * places the mover's stone and either records the mover as winner or passes the turn.
   */
  function Move(s: State, row: int, col: int): (t: State)
    requires s.Valid() && OnBoard(row, col)
    ensures t.Valid()
    ensures Keeps(s, t)
  {
    if s.cells[row][col] == Empty && s.winner == None then
      var g := Place(s.cells, row, col, Stone(s.current.symbol));
      if Wins(g, row, col, s.current.symbol) then State(g, s.current, Some(s.current))
      else State(g, Switched(s.current), None)
    else
      s
  }

  /**
   * An accepted move sets exactly the target cell to the mover's symbol. The mover becomes
   * the winner (keeping the turn) exactly when that stone completes five in a row through
   * the cell; otherwise there is still no winner and the turn passes.
   */
  lemma MoveAccepted(s: State, row: int, col: int)
    requires s.Valid() && OnBoard(row, col)
    requires s.cells[row][col] == Empty && s.winner == None
    ensures var t := Move(s, row, col);
      t.cells[row][col] == Stone(s.current.symbol) &&
      (forall i, j :: OnBoard(i, j) && (i, j) != (row, col) ==> t.cells[i][j] == s.cells[i][j]) &&
      (RunOfFive(t.cells, row, col, s.current.symbol) ==> t.winner == Some(s.current) && t.current == s.current) &&
      (!RunOfFive(t.cells, row, col, s.current.symbol) ==> t.winner == None && t.current == Switched(s.current))
  {
    var g := Place(s.cells, row, col, Stone(s.current.symbol));
    WinsIffFiveThrough(g, row, col, s.current.symbol);
    PlacedFiveIsRun(g, row, col, s.current.symbol);
  }

  /** A move on an occupied cell, or once there is a winner, changes nothing. */
  lemma MoveRejected(s: State, row: int, col: int)
    requires s.Valid() && OnBoard(row, col)
    requires s.cells[row][col] != Empty || s.winner.Some?
    ensures Move(s, row, col) == s
  {
  }

  predicate AllOnBoard(moves: seq<(int, int)>)
  {
    forall i :: 0 <= i < |moves| ==> OnBoard(moves[i].0, moves[i].1)
  }

  /** The state after a sequence of moves, each one (row, col). */
  ghost function Play(s: State, moves: seq<(int, int)>): (t: State)
    requires s.Valid()
    requires AllOnBoard(moves)
    ensures t.Valid()
    decreases |moves|
  {
    if moves == [] then s
    else Play(Move(s, moves[0].0, moves[0].1), moves[1..])
  }

  /** Playing a non-empty sequence is its first move, then the rest. */
  lemma PlayFirst(s: State, moves: seq<(int, int)>)
    requires s.Valid() && moves != [] && AllOnBoard(moves)
    ensures Play(s, moves) == Play(Move(s, moves[0].0, moves[0].1), moves[1..])
  {
  }

  /** Playing two sequences one after the other is playing them joined. */
  lemma {:induction false} PlayConcat(s: State, a: seq<(int, int)>, b: seq<(int, int)>)
    requires s.Valid() && AllOnBoard(a) && AllOnBoard(b)
    ensures AllOnBoard(a + b)
    ensures Play(s, a + b) == Play(Play(s, a), b)
    decreases |a|
  {
    if a != [] {
      assert (a + b)[0] == a[0] && (a + b)[1..] == a[1..] + b;
      PlayConcat(Move(s, a[0].0, a[0].1), a[1..], b);
    } else {
      assert a + b == b;
    }
  }

  /** Over any sequence of moves, no stone is removed or overwritten and a set winner stays. */
  lemma {:induction false} PlayKeeps(s: State, moves: seq<(int, int)>)
    requires s.Valid()
    requires AllOnBoard(moves)
    ensures Keeps(s, Play(s, moves))
    decreases |moves|
  {
    if moves != [] {
      var s' := Move(s, moves[0].0, moves[0].1);
      PlayKeeps(s', moves[1..]);
    }
  }

  /** Once a game has a winner, every later sequence of moves leaves it exactly as it is. */
  lemma {:induction false} WonGameIsFrozen(s: State, moves: seq<(int, int)>)
    requires s.Valid() && s.winner.Some?
    requires AllOnBoard(moves)
    ensures Play(s, moves) == s
    decreases |moves|
  {
    if moves != [] {
      WonGameIsFrozen(s, moves[1..]);
    }
  }

  /** The mutable game object: the board array, the player to move and the winner. */
  class Gomoku {
    const board: array2<Cell>
    var current: Player
    var winner: Option<Player>

    /** The board array as a grid value. */
    ghost var cells: Grid

    ghost predicate Valid()
      reads this, board
    {
      board.Length0 == GridSize && board.Length1 == GridSize && WellFormed(cells) &&
      (forall i, j :: OnBoard(i, j) ==> board[i, j] == cells[i][j]) &&
      current in Players && (winner.Some? ==> winner.value in Players)
    }

    ghost function Model(): (s: State)
      reads this, board
      requires Valid()
      ensures s.Valid()
    {
      State(cells, current, winner)
    }

    /** A new game: an empty board, X to move, no winner. */
    constructor ()
      ensures Valid() && fresh(board)
      ensures Model() == NewGame()
    {
      board := new Cell[GridSize, GridSize]((i, j) => Empty);
      cells := EmptyGrid();
      current := Players[0];
      winner := None;
    }

    /** Hands the turn to the other player. */
    method SwitchPlayer()
      requires Valid()
      modifies this`current
      ensures Valid()
      ensures current == Switched(old(current))
    {
      current := if current == Players[0] then Players[1] else Players[0];
    }

    /** Places the current player's stone at (row, col) if allowed, then records a win or passes the turn. */
    method MakeMove(row: int, col: int)
      requires Valid() && OnBoard(row, col)
      modifies this, board
      ensures Valid()
      ensures Model() == Move(old(Model()), row, col)
    {
      if board[row, col] == Empty && winner == None {
        board[row, col] := Stone(current.symbol);
        cells := Place(cells, row, col, Stone(current.symbol));
        var won := CheckWin(row, col);
        if won {
          winner := Some(current);
        } else {
          SwitchPlayer();
        }
      }
    }

    /**
     * Scans the four axes through (row, col) and reports whether some axis counts five:
     * the cell (row, col) itself, counted without inspection, plus the runs found going
     * forwards and backwards.
     */
    method CheckWin(row: int, col: int) returns (won: bool)
      requires Valid()
      ensures won == Wins(cells, row, col, current.symbol)
      ensures won == FiveThrough(cells, row, col, current.symbol)
    {
      var sym := current.symbol;
      var d := 0;
      while d < |Directions|
        invariant 0 <= d <= |Directions|
        invariant forall j :: 0 <= j < d ==> Count(cells, row, col, Directions[j].0, Directions[j].1, sym) < WinLength
      {
        var forward := Run(row, col, Directions[d].0, Directions[d].1, sym);
        var backward := Run(row, col, -Directions[d].0, -Directions[d].1, sym);
        var count := 1 + forward + backward;
        assert count == Count(cells, row, col, Directions[d].0, Directions[d].1, sym);
        if count >= WinLength {
          assert Wins(cells, row, col, sym);
          assert FiveThrough(cells, row, col, sym) by { WinsIffFiveThrough(cells, row, col, sym); }
          return true;
        }
        d := d + 1;
      }
      assert !Wins(cells, row, col, sym);
      assert !FiveThrough(cells, row, col, sym) by { WinsIffFiveThrough(cells, row, col, sym); }
      return false;
    }

    /**
     * Counts the cells one to four steps from (row, col) along (dr, dc) that hold `sym`,
     * stopping at the first cell that is off the board or holds something else.
     */
    method Run(row: int, col: int, dr: int, dc: int, sym: char) returns (n: nat)
      requires Valid()
      ensures n == Reach(cells, row, col, dr, dc, sym, 1)
    {
      n := 0;
      var i := 1;
      while i <= MaxSteps
        invariant 1 <= i <= MaxSteps + 1
        invariant n == i - 1
        invariant forall k :: 1 <= k < i ==> Step(cells, row, col, dr, dc, sym, k)
      {
        var r, c := row + i * dr, col + i * dc;
        if 0 <= r < GridSize && 0 <= c < GridSize && board[r, c] == Stone(sym) {
          n := n + 1;
        } else {
          break;
        }
        i := i + 1;
      }
      ReachAtLeast(cells, row, col, dr, dc, sym, 1, n);
    }
  }
}
