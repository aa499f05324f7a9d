# Gomoku game state, modelled in Dafny

This project models the game-state machine of a two-player Gomoku (five in a row) game
on a 15×15 board, and the arithmetic that turns a mouse click in the 600×600 window into
a board cell.

- **State.** The state is a board of cells, the player to move and an optional winner. A
  cell is empty or holds the symbol `'X'` or `'O'`. There are two players, X and O, and X
  moves first.
- **`make_move`.** A move goes on an empty cell of a game that has no winner. The move
  places the current player's stone. It then checks for a win through that cell. On a win
  it records the mover as winner and keeps the turn. Otherwise it passes the turn.
- **`check_win`.** The win check looks only at the four axes through the placed cell. On
  each axis it walks at most four steps each way. Each walk stops at the first cell that is
  off the board or does not hold the mover's symbol. The test passes when one count, the
  placed cell included, reaches five.

The files are:

- `board.dfy`, module `Board`: the board as a value (`Grid = seq<seq<Cell>>`).
  - `Reach` and `Count` follow the capped scan.
  - `Wins` is the scan's win test.
  - `FiveThrough` is the declarative rule: there is a line of five through the cell on one
    of the four axes.
  - The lemma `WinsIffFiveThrough` proves that the scan and the rule agree.
- `game.dfy`, module `Game`:
  - `State`, plus `Move`, the reference definition of one `make_move` call.
  - `Play`, for a sequence of moves.
  - Lemmas about `Move` and `Play`.
  - Class `Gomoku`: the mutable object, with the board as an `array2<Cell>` and the fields
    `current` and `winner`. Each method is proved against its value-level counterpart:
    the constructor against `NewGame`, `SwitchPlayer` against `Switched`, `MakeMove`
    against `Move`, `CheckWin` against `Wins` and `FiveThrough`, and `Run` against `Reach`.
- `click.dfy`, module `Click`: `CellIndex` is the pixel-to-cell division by
  `CellSize = 600 / 15 = 40`. `OnClick` covers one click event: the attempted move and the
  pair that is sent to the peer.
- `scenarios.dfy`, module `Scenarios`: worked games proved from the rules. One is the
  opening move at the centre. The other is a race along the two top rows, where four in a
  row does not win and the fifth stone does.

Details of the code that the model keeps:

- `make_move` (gomoku.py:38-44) checks no bounds and returns nothing. The model's
  `MakeMove` returns nothing. It requires an on-board cell, because its only caller, the
  game loop, passes `pos // 40` for a click inside the window (gomoku.py:113-115).
- The game loop sends `(row, col)` to the peer after every click, whether the move was
  accepted or not (gomoku.py:116). `OnClick` returns that pair in every case.
- gomoku.py has no handshake between the two peers, only `connect` and `send`. None is
  modelled.
- `check_win` counts the placed cell as 1 without looking at it. `Window` mirrors this by
  leaving offset 0 unchecked. `PlacedFiveIsRun` shows that this makes no difference inside
  `make_move`, where that cell has just been set.

## Model

| member | source | states |
|---|---|---|
| `Board.EmptyGrid` | gomoku.py:30 | the new board is 15×15 and every cell is empty |
| `Board.Place` | gomoku.py:40 | the board stays 15×15, the target cell holds the new value, and every other cell is unchanged |
| `Board.Reach` | gomoku.py:50-61 | one walk of the scan counts at most four steps, and every counted step is on the board and holds the symbol |
| `Board.ReachStops` | gomoku.py:52-55 | the walk stops only after the fourth step or at a cell that is off the board or holds something else |
| `Board.ReachAtLeast` | gomoku.py:50-55 | when steps i to m all hold the symbol, the walk from step i counts at least m - i + 1 |
| `Board.StepBackward` | gomoku.py:57 | the backward walk (`row - i*dr`) is the forward walk along the negated direction |
| `Board.Count` | gomoku.py:49-61 | the per-axis `count` of the scan: the placed cell plus the forward and backward walks, so it lies between 1 and 9. What reaching five means is stated by `CountIffFiveAlong` |
| `Board.Wins` | gomoku.py:46-64 | the value-level result of `check_win`: some one of the four axes counts at least five. It has no contract of its own; `WinsIffFiveThrough` gives its meaning and `Gomoku.CheckWin` is proved equal to it |
| `Board.CountIffFiveAlong` | gomoku.py:49-62 | on one axis, 1 + forward run + backward run reaches 5 exactly when some five consecutive cells through the placed cell hold the symbol (the placed cell itself not inspected) |
| `Board.WinsIffFiveThrough` | gomoku.py:46-64 | the scan's test over the four directions (1,0), (0,1), (1,1), (1,-1) holds exactly when there is a line of five through the cell on one of them |
| `Board.PlacedFiveIsRun` | gomoku.py:40-41 | once the placed cell holds the symbol, the win test holds exactly when five stones of that symbol lie in a row through the cell |
| `Game.Switched` | gomoku.py:35-36 | the next player is one of the two players, and not the same player as before |
| `Game.SwitchTwice` | gomoku.py:35-36 | switching twice gives the turn back to the original player |
| `Game.NewGame` | gomoku.py:29-33 | the initial state is well formed |
| `Game.NewGameIsEmpty` | gomoku.py:29-33 | a new game has an empty board, `'X'` (`players[0]`) to move and no winner |
| `Game.Move` | gomoku.py:38-44 | a move keeps the state well formed, never removes or overwrites a stone, and leaves a game that already has a winner exactly as it was |
| `Game.MoveAccepted` | gomoku.py:39-44 | on an empty cell with no winner, exactly that cell gets the mover's symbol. With five in a row through it, the mover becomes winner and keeps the turn. Otherwise there is no winner and the turn passes |
| `Game.MoveRejected` | gomoku.py:39 | on an occupied cell, or once there is a winner, the board, the turn and the winner are unchanged |
| `Game.Play` | gomoku.py:107-115 | repeated moves, as the event loop makes them, keep the state well formed |
| `Game.PlayKeeps` | gomoku.py:39-42 | over any sequence of moves, no stone is removed or overwritten and a set winner never changes |
| `Game.WonGameIsFrozen` | gomoku.py:39 | once there is a winner, every later sequence of moves leaves the whole state unchanged |
| `Game.Gomoku.constructor` | gomoku.py:29-33 | the new object's board, turn and winner are those of `NewGame`: empty, X to move, no winner |
| `Game.Gomoku.SwitchPlayer` | gomoku.py:35-36 | only `current` changes, and it becomes the other player |
| `Game.Gomoku.MakeMove` | gomoku.py:38-44 | the new board, turn and winner are `Move` of the old ones. The board array is updated in place |
| `Game.Gomoku.CheckWin` | gomoku.py:46-64 | the result equals the scan's test on the current board and symbol, and equally the declarative five-in-a-row rule |
| `Game.Gomoku.Run` | gomoku.py:50-61 | one inner loop of the scan returns exactly the capped run length `Reach` |
| `Click.CellIndex` | gomoku.py:113-114 | the index is the coordinate divided by `CELL_SIZE` = 40, rounded down. The index lies in 0..14 exactly when the coordinate lies in 0..599 |
| `Click.ClickIsOnBoard` | gomoku.py:113-115 | every click inside the window gives a cell on the board, so `make_move`'s bounds requirement always holds |
| `Click.OnClick` | gomoku.py:112-116 | a click tries the move at (y // 40, x // 40), and that pair is what is sent, whether or not the move was accepted |
| `Scenarios.FirstMoveAtCentre` | gomoku.py:38-44 | the opening move at (7,7) puts X there, hands the turn to O and sets no winner |
| `Scenarios.XCompletesFive` | gomoku.py:41-42 | X's fifth stone in row 0 wins, and X keeps the turn |
| `Scenarios.TopRowsRace` | gomoku.py:38-64 | after X and O each have four in a row there is no winner and X is to move. X's fifth stone then makes X the winner |

## Left out

- Rendering, the window, fonts, colours and the 30 Hz frame loop (gomoku.py:13-21, 85-125) are left out. They are display and timing only.
- The colour of a player (gomoku.py:26) is left out. It is used only for drawing, so `Player` keeps just the symbol.
- The Tkinter dialog that asks for host and port (gomoku.py:66-74) is left out. It is an interactive prompt.
- Socket connect and send and `pickle` serialisation (gomoku.py:127-141) are left out. They are network I/O and a foreign serialiser. `OnClick` returns the pair that would be sent, and a failed send only prints a message.
- The players list is a module constant, not a per-object attribute. The source never changes it. Players are compared by value. In the source they are compared by object identity, which is the same thing here because the two symbols differ.
- `Game.Gomoku.MakeMove` requires the cell to be on the board. In Python, negative indices would wrap and indices of 15 or more would raise an error. The only caller never passes those.
- `Click.OnClick` requires the click to lie inside the 600×600 window. That is where pygame reports button presses.
