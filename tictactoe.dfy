/**
 * Vocabulary shared by the two 3x3 tic-tac-toe scripts: the nested-list
 * version (tictactoe_lists.py) and the dictionary version (tictactoe_dict.py).
 * Both keep the same five globals -- board, current_player, moves_made,
 * game_over, winner -- and differ only in how the board is stored.
 */
module TicTacToe {

  /** A cell is taken when it holds 'X' or 'O' (the test `in ['X', 'O']`). */
  predicate IsMark(c: char) {
    c == 'X' || c == 'O'
  }

  /** The label a free cell shows: the digit of its position, '1'..'9'. */
  function Label(p: int): (c: char)
    requires 1 <= p <= 9
    ensures '1' <= c <= '9' && !IsMark(c)
    ensures c as int - '0' as int == p
  {
    ('0' as int + p) as char
  }

  /** The player switch: 'X' becomes 'O', anything else becomes 'X'. */
  function Opponent(player: char): (r: char)
    ensures IsMark(r)
    ensures IsMark(player) ==> r != player
  {
    if player == 'X' then 'O' else 'X'
  }

  /** What one line of keyboard input does, already parsed by `int()` or not. */
  datatype Attempt =
    | NotANumber                      // int() raised: "Please enter a number, not letters or symbols"
    | OutOfRange(number: int)         // "Please enter a number between 1 and 9"
    | Taken(position: int, holder: char)  // "Position p is already taken by ..."
    | Accepted(position: int)         // "Valid move! Placing ..."

  /**
   * The globals of either script. `winner` is "" while the game runs and
   * "X", "O" or "Tie" once `over` (game_over) is true.
   */
  datatype GameState<B> = GameState(board: B, current: char, moves: nat, over: bool, winner: string)

  /** Number of taken cells in a list of cell contents. */
  function CountMarks(cells: seq<char>): (n: nat)
    ensures n <= |cells|
  {
    if cells == [] then 0 else (if IsMark(cells[0]) then 1 else 0) + CountMarks(cells[1..])
  }

  /** Marking one free cell raises the count of taken cells by exactly one. */
  lemma {:induction false} CountMarksUpdate(cells: seq<char>, i: int, m: char)
    requires 0 <= i < |cells| && !IsMark(cells[i]) && IsMark(m)
    ensures CountMarks(cells[i := m]) == CountMarks(cells) + 1
  {
    if i == 0 {
      assert cells[i := m][1..] == cells[1..];
    } else {
      CountMarksUpdate(cells[1..], i - 1, m);
      assert cells[i := m][1..] == cells[1..][i - 1 := m];
    }
  }

  /** A list without marks counts none. */
  lemma {:induction false} CountMarksNone(cells: seq<char>)
    requires forall i :: 0 <= i < |cells| ==> !IsMark(cells[i])
    ensures CountMarks(cells) == 0
  {
    if cells != [] {
      CountMarksNone(cells[1..]);
    }
  }

  /** When every cell is counted as taken, every cell holds a mark. */
  lemma {:induction false} CountMarksFull(cells: seq<char>)
    requires CountMarks(cells) == |cells|
    ensures forall i :: 0 <= i < |cells| ==> IsMark(cells[i])
  {
    if cells != [] {
      CountMarksFull(cells[1..]);
      assert forall i :: 1 <= i < |cells| ==> cells[i] == cells[1..][i - 1];
    }
  }
}
