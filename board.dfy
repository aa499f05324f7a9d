/** The 15x15 board of the game and the five-in-a-row rule, as pure values. */
module Board {

  const GridSize := 15

  /** Steps taken in each direction away from the placed cell. */
  const MaxSteps := 4

  /** Length of a winning run, the placed cell included. */
  const WinLength := 5

  /** The four axes scanned through the placed cell: vertical, horizontal and the two diagonals. */
  const Directions: seq<(int, int)> := [(1, 0), (0, 1), (1, 1), (1, -1)]

  /** A cell is empty (0 in the source) or holds the symbol of the player who took it. */
  datatype Cell = Empty | Stone(symbol: char)

  /** Row-major board: Grid[row][col]. */
  type Grid = seq<seq<Cell>>

  predicate WellFormed(g: Grid)
  {
    |g| == GridSize && forall i :: 0 <= i < |g| ==> |g[i]| == GridSize
  }

  predicate OnBoard(r: int, c: int)
  {
    0 <= r < GridSize && 0 <= c < GridSize
  }

  function EmptyGrid(): (g: Grid)
    ensures WellFormed(g)
    ensures forall i, j :: OnBoard(i, j) ==> g[i][j] == Empty
  {
    seq(GridSize, i => seq(GridSize, j => Empty))
  }

  /** The board with cell (row, col) set to `c` and every other cell as it was. */
  function Place(g: Grid, row: int, col: int, c: Cell): (h: Grid)
    requires WellFormed(g) && OnBoard(row, col)
    ensures WellFormed(h)
    ensures h[row][col] == c
    ensures forall i, j :: OnBoard(i, j) && (i, j) != (row, col) ==> h[i][j] == g[i][j]
  {
    g[row := g[row][col := c]]
  }

  /** Two well-formed boards that agree on every cell are equal. */
  lemma GridsEqual(g: Grid, h: Grid)
    requires WellFormed(g) && WellFormed(h)
    requires forall i, j :: OnBoard(i, j) ==> g[i][j] == h[i][j]
    ensures g == h
  {
    forall i | 0 <= i < GridSize
      ensures g[i] == h[i]
    {
      assert forall j :: 0 <= j < GridSize ==> g[i][j] == h[i][j];
    }
  }

  /** Cell (r, c) is on the board and holds `sym`. */
  predicate Holds(g: Grid, r: int, c: int, sym: char)
    requires WellFormed(g)
  {
    OnBoard(r, c) && g[r][c] == Stone(sym)
  }

  /** The cell k steps from (row, col) along (dr, dc) is on the board and holds `sym`. */
  predicate Step(g: Grid, row: int, col: int, dr: int, dc: int, sym: char, k: int)
    requires WellFormed(g)
  {
    Holds(g, row + k * dr, col + k * dc, sym)
  }

  /** Going k steps backwards is going -k steps forwards. */
  lemma StepBackward(g: Grid, row: int, col: int, dr: int, dc: int, sym: char, k: int)
    requires WellFormed(g)
    ensures Step(g, row, col, -dr, -dc, sym, k) == Step(g, row, col, dr, dc, sym, -k)
  {
    assert k * -dr == -k * dr && k * -dc == -k * dc;
  }

  /**
   * The number of contiguous steps i, i+1, ... (at most up to step MaxSteps) along (dr, dc)
   * whose cells hold `sym`: the scan stops at the first cell that is off the board or
   * holds something else.
   */
  function Reach(g: Grid, row: int, col: int, dr: int, dc: int, sym: char, i: int): (n: nat)
    requires WellFormed(g)
    requires 1 <= i <= MaxSteps + 1
    decreases MaxSteps + 1 - i
    ensures n <= MaxSteps + 1 - i
    ensures forall k :: i <= k < i + n ==> Step(g, row, col, dr, dc, sym, k)
  {
    if i == MaxSteps + 1 || !Step(g, row, col, dr, dc, sym, i) then 0
    else 1 + Reach(g, row, col, dr, dc, sym, i + 1)
  }

  /** The scan from step i stops only at the last step or at a cell that does not hold `sym`. */
  lemma {:induction false} ReachStops(g: Grid, row: int, col: int, dr: int, dc: int, sym: char, i: int)
    requires WellFormed(g)
    requires 1 <= i <= MaxSteps + 1
    ensures var n := Reach(g, row, col, dr, dc, sym, i);
      i + n <= MaxSteps ==> !Step(g, row, col, dr, dc, sym, i + n)
    decreases MaxSteps + 1 - i
  {
    if i <= MaxSteps && Step(g, row, col, dr, dc, sym, i) {
      ReachStops(g, row, col, dr, dc, sym, i + 1);
    }
  }

  /** When steps i .. m all hold `sym`, the scan from step i gets at least to step m. */
  lemma {:induction false} ReachAtLeast(g: Grid, row: int, col: int, dr: int, dc: int, sym: char, i: int, m: int)
    requires WellFormed(g)
    requires 1 <= i <= MaxSteps + 1 && m <= MaxSteps
    requires forall k :: i <= k <= m ==> Step(g, row, col, dr, dc, sym, k)
    ensures Reach(g, row, col, dr, dc, sym, i) >= m - i + 1
    decreases m - i
  {
    if i <= m {
      ReachAtLeast(g, row, col, dr, dc, sym, i + 1, m);
    }
  }

  /** The placed cell plus the capped runs forwards and backwards along (dr, dc). */
  function Count(g: Grid, row: int, col: int, dr: int, dc: int, sym: char): (n: nat)
    requires WellFormed(g)
    ensures 1 <= n <= 2 * MaxSteps + 1
  {
    1 + Reach(g, row, col, dr, dc, sym, 1) + Reach(g, row, col, -dr, -dc, sym, 1)
  }

  /** The win test as the scan computes it: some axis has a count of at least WinLength. */
  predicate Wins(g: Grid, row: int, col: int, sym: char)
    requires WellFormed(g)
  {
    exists j :: 0 <= j < |Directions| && Count(g, row, col, Directions[j].0, Directions[j].1, sym) >= WinLength
  }

  /**
   * Offsets a .. a + 4 along (dr, dc) form a line of five through the placed cell (offset 0)
   * in which every cell other than the placed one is on the board and holds `sym`.
   * The placed cell itself is not inspected, as in the scan.
   */
  ghost predicate Window(g: Grid, row: int, col: int, dr: int, dc: int, sym: char, a: int)
    requires WellFormed(g)
  {
    -MaxSteps <= a <= 0 &&
    forall k :: a <= k <= a + MaxSteps && k != 0 ==> Step(g, row, col, dr, dc, sym, k)
  }

  ghost predicate FiveAlong(g: Grid, row: int, col: int, dr: int, dc: int, sym: char)
    requires WellFormed(g)
  {
    exists a :: Window(g, row, col, dr, dc, sym, a)
  }

  /** The declarative win rule: a line of five through (row, col) on one of the four axes. */
  ghost predicate FiveThrough(g: Grid, row: int, col: int, sym: char)
    requires WellFormed(g)
  {
    exists j :: 0 <= j < |Directions| && FiveAlong(g, row, col, Directions[j].0, Directions[j].1, sym)
  }

  /** On one axis, the capped count reaches five exactly when there is a line of five. */
  lemma CountIffFiveAlong(g: Grid, row: int, col: int, dr: int, dc: int, sym: char)
    requires WellFormed(g)
    ensures Count(g, row, col, dr, dc, sym) >= WinLength <==> FiveAlong(g, row, col, dr, dc, sym)
  {
    var f := Reach(g, row, col, dr, dc, sym, 1);
    var b := Reach(g, row, col, -dr, -dc, sym, 1);
    if f + b >= MaxSteps {
      forall k | -b <= k <= -b + MaxSteps && k != 0
        ensures Step(g, row, col, dr, dc, sym, k)
      {
        if k < 0 {
          StepBackward(g, row, col, dr, dc, sym, -k);
        }
      }
      assert Window(g, row, col, dr, dc, sym, -b);
    }
    if a :| Window(g, row, col, dr, dc, sym, a) {
      ReachAtLeast(g, row, col, dr, dc, sym, 1, a + MaxSteps);
      var nr, nc := -dr, -dc;
      forall k | 1 <= k <= -a
        ensures Step(g, row, col, nr, nc, sym, k)
      {
        StepBackward(g, row, col, dr, dc, sym, k);
      }
      ReachAtLeast(g, row, col, nr, nc, sym, 1, -a);
    }
  }

  /** The scan's win test agrees with the declarative rule. */
  lemma WinsIffFiveThrough(g: Grid, row: int, col: int, sym: char)
    requires WellFormed(g)
    ensures Wins(g, row, col, sym) <==> FiveThrough(g, row, col, sym)
  {
    forall j | 0 <= j < |Directions|
      ensures Count(g, row, col, Directions[j].0, Directions[j].1, sym) >= WinLength
          <==> FiveAlong(g, row, col, Directions[j].0, Directions[j].1, sym)
    {
      CountIffFiveAlong(g, row, col, Directions[j].0, Directions[j].1, sym);
    }
  }

  /** Five cells a .. a + 4 along (dr, dc), the cell (row, col) among them, all holding `sym`. */
  ghost predicate FullWindow(g: Grid, row: int, col: int, dr: int, dc: int, sym: char, a: int)
    requires WellFormed(g)
  {
    -MaxSteps <= a <= 0 &&
    forall k :: a <= k <= a + MaxSteps ==> Step(g, row, col, dr, dc, sym, k)
  }

  /** Five stones of `sym` in a row on one axis, one of them at (row, col). */
  ghost predicate RunOfFive(g: Grid, row: int, col: int, sym: char)
    requires WellFormed(g)
  {
    exists j, a :: 0 <= j < |Directions| && FullWindow(g, row, col, Directions[j].0, Directions[j].1, sym, a)
  }

  /**
   * Once (row, col) itself holds `sym`, as it does right after the move, passing the scan
   * means exactly a real run of five stones through the cell.
   */
  lemma PlacedFiveIsRun(g: Grid, row: int, col: int, sym: char)
    requires WellFormed(g) && Holds(g, row, col, sym)
    ensures FiveThrough(g, row, col, sym) <==> RunOfFive(g, row, col, sym)
  {
    assert forall dr, dc :: Step(g, row, col, dr, dc, sym, 0);
    if FiveThrough(g, row, col, sym) {
      var j :| 0 <= j < |Directions| && FiveAlong(g, row, col, Directions[j].0, Directions[j].1, sym);
      var a :| Window(g, row, col, Directions[j].0, Directions[j].1, sym, a);
      assert FullWindow(g, row, col, Directions[j].0, Directions[j].1, sym, a);
    }
    if RunOfFive(g, row, col, sym) {
      var j, a :| 0 <= j < |Directions| && FullWindow(g, row, col, Directions[j].0, Directions[j].1, sym, a);
      assert Window(g, row, col, Directions[j].0, Directions[j].1, sym, a);
    }
  }
}
