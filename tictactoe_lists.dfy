/**
 * The nested-list tic-tac-toe script (tictactoe_lists.py; the copy under
 * tictactoe/ is identical). The board is a list of three rows of three
 * one-character strings, '1'..'9' while free and 'X' or 'O' once taken.
 *
 * The first half is the rule book as functions on the script's globals;
 * the class `ListsGame` is the script itself, with the board as a 3x3 array
 * written in place, and each of its methods is proved against the rule book.
 */
module TicTacToeLists {
  import opened Wrappers
  import opened TicTacToe

  type Grid = seq<seq<char>>
  type State = GameState<Grid>

  /** Three rows of three cells. */
  predicate Shaped(g: Grid) {
    |g| == 3 && |g[0]| == 3 && |g[1]| == 3 && |g[2]| == 3
  }

  const InitialGrid: Grid := [['1', '2', '3'], ['4', '5', '6'], ['7', '8', '9']]

  /** X moves first on a board of labels; nobody has won and no move is made. */
  const Initial: State := GameState(InitialGrid, 'X', 0, false, "")

  /**
   * Position 1..9 to (row, column): `(p - 1) // 3` and `(p - 1) % 3`.
   * The pair lies on the board and determines `p` again, so distinct positions
   * get distinct cells.
   */
  function ToCell(p: int): (rc: (int, int))
    requires 1 <= p <= 9
    ensures 0 <= rc.0 < 3 && 0 <= rc.1 < 3
    ensures 3 * rc.0 + rc.1 + 1 == p
  {
    ((p - 1) / 3, (p - 1) % 3)
  }

  /** The nine cells in position order: cell p is at index p - 1. */
  function Cells(g: Grid): (cs: seq<char>)
    requires Shaped(g)
    ensures |cs| == 9
    ensures forall p :: 1 <= p <= 9 ==> cs[p - 1] == g[ToCell(p).0][ToCell(p).1]
  {
    g[0] + g[1] + g[2]
  }

  /** The range check and the occupancy check of one line of input. */
  function Validation(g: Grid, input: Option<int>): (a: Attempt)
    requires Shaped(g)
    ensures a == NotANumber <==> input.None?
    ensures a.OutOfRange? <==> input.Some? && !(1 <= input.value <= 9)
    ensures a.OutOfRange? ==> a.number == input.value
    ensures a.Accepted? <==> input.Some? && 1 <= input.value <= 9 && !IsMark(Cells(g)[input.value - 1])
    ensures a.Taken? ==> input == Some(a.position) && 1 <= a.position <= 9
                         && a.holder == Cells(g)[a.position - 1] && IsMark(a.holder)
    ensures a.Accepted? ==> input == Some(a.position)
  {
    match input
    case None => NotANumber
    case Some(p) =>
      if 1 <= p <= 9 then
        var (r, c) := ToCell(p);
        if g[r][c] !in ['X', 'O'] then Accepted(p) else Taken(p, g[r][c])
      else OutOfRange(p)
  }

  // ---------------------------------------------------------------------
  // Win detection: `a == b == c and a in ['X', 'O']` on each line
  // ---------------------------------------------------------------------

  predicate Same3(a: char, b: char, c: char) {
    a == b && b == c && IsMark(a)
  }

  predicate RowWins(g: Grid, i: int)
    requires Shaped(g) && 0 <= i < 3
  {
    Same3(g[i][0], g[i][1], g[i][2])
  }

  predicate ColWins(g: Grid, j: int)
    requires Shaped(g) && 0 <= j < 3
  {
    Same3(g[0][j], g[1][j], g[2][j])
  }

  predicate MainDiagWins(g: Grid)
    requires Shaped(g)
  {
    Same3(g[0][0], g[1][1], g[2][2])
  }

  predicate AntiDiagWins(g: Grid)
    requires Shaped(g)
  {
    Same3(g[0][2], g[1][1], g[2][0])
  }

  /** No row, column or diagonal holds three equal marks. */
  predicate NoLineWins(g: Grid)
    requires Shaped(g)
  {
    && (forall i :: 0 <= i < 3 ==> !RowWins(g, i))
    && (forall j :: 0 <= j < 3 ==> !ColWins(g, j))
    && !MainDiagWins(g) && !AntiDiagWins(g)
  }

  /** The `for i in range(3)` row scan with `break`: the first winning row at or after `i`. */
  function FirstRowFrom(g: Grid, i: nat): (r: Option<nat>)
    requires Shaped(g) && i <= 3
    ensures r.Some? ==> i <= r.value < 3 && RowWins(g, r.value)
    ensures r.Some? ==> forall k :: i <= k < r.value ==> !RowWins(g, k)
    ensures r.None? ==> forall k :: i <= k < 3 ==> !RowWins(g, k)
    decreases 3 - i
  {
    if i == 3 then None else if RowWins(g, i) then Some(i) else FirstRowFrom(g, i + 1)
  }

  /** The column scan: the first winning column at or after `j`. */
  function FirstColFrom(g: Grid, j: nat): (r: Option<nat>)
    requires Shaped(g) && j <= 3
    ensures r.Some? ==> j <= r.value < 3 && ColWins(g, r.value)
    ensures r.Some? ==> forall k :: j <= k < r.value ==> !ColWins(g, k)
    ensures r.None? ==> forall k :: j <= k < 3 ==> !ColWins(g, k)
    decreases 3 - j
  {
    if j == 3 then None else if ColWins(g, j) then Some(j) else FirstColFrom(g, j + 1)
  }

  /**
   * The whole scan in the script's order: rows 0..2, then columns 0..2 (only
   * if no row won), then the main diagonal, then the anti-diagonal. The
   * result is the mark on the first line that matched.
   */
  function Scan(g: Grid): (w: Option<char>)
    requires Shaped(g)
    ensures w.None? <==> NoLineWins(g)
    ensures w.Some? ==> IsMark(w.value)
  {
    match FirstRowFrom(g, 0)
    case Some(i) => Some(g[i][0])
    case None =>
      match FirstColFrom(g, 0)
      case Some(j) => Some(g[0][j])
      case None =>
        if MainDiagWins(g) then Some(g[0][0])
        else if AntiDiagWins(g) then Some(g[0][2])
        else None
  }

  /** The mark a scan reports is that of a complete line. */
  lemma ScanSound(g: Grid)
    requires Shaped(g)
    ensures Scan(g).Some? ==>
      || (exists i :: 0 <= i < 3 && RowWins(g, i) && g[i][0] == Scan(g).value)
      || (exists j :: 0 <= j < 3 && ColWins(g, j) && g[0][j] == Scan(g).value)
      || (MainDiagWins(g) && g[0][0] == Scan(g).value)
      || (AntiDiagWins(g) && g[0][2] == Scan(g).value)
  {
  }

  /** The scan order: a column is reported only when no row is complete. */
  lemma RowsBeforeColumns(g: Grid)
    requires Shaped(g)
    requires exists i :: 0 <= i < 3 && RowWins(g, i)
    ensures exists i :: 0 <= i < 3 && RowWins(g, i) && Scan(g) == Some(g[i][0])
              && forall k :: 0 <= k < i ==> !RowWins(g, k)
  {
    var i :| 0 <= i < 3 && RowWins(g, i);
    var r := FirstRowFrom(g, 0);
    assert r.Some?;
  }

  // ---------------------------------------------------------------------
  // One move and the game loop
  // ---------------------------------------------------------------------

  /** `board[row][col] = current_player` and `moves_made = moves_made + 1`. */
  function Place(s: State, r: int, c: int): (t: State)
    requires Shaped(s.board) && 0 <= r < 3 && 0 <= c < 3
    ensures Shaped(t.board)
  {
    s.(board := s.board[r := s.board[r][c := s.current]], moves := s.moves + 1)
  }

  /**
   * After the placement: a matched line ends the game with its mark as the
   * winner; otherwise nine moves end it in a tie; otherwise the turn passes.
   */
  function Decide(s: State): (t: State)
    requires Shaped(s.board)
    ensures t.board == s.board && t.moves == s.moves
  {
    match Scan(s.board)
    case Some(w) => s.(over := true, winner := [w])
    case None =>
      if s.moves == 9 then s.(over := true, winner := "Tie")
      else s.(current := Opponent(s.current))
  }

  function AfterMove(s: State, r: int, c: int): (t: State)
    requires Shaped(s.board) && 0 <= r < 3 && 0 <= c < 3
    ensures Shaped(t.board)
  {
    Decide(Place(s, r, c))
  }

  /**
   * One line of input while the game is running. A rejected line changes
   * nothing, so the same player is asked again; an accepted one writes the
   * current player into exactly the cell of its position, counts one move
   * and leaves the other eight cells as they were.
   */
  function Play(s: State, input: Option<int>): (r: (State, Attempt))
    requires Shaped(s.board) && !s.over
    ensures Shaped(r.0.board)
    ensures r.1 == Validation(s.board, input)
    ensures !r.1.Accepted? ==> r.0 == s
    ensures r.1.Accepted? ==>
      && input == Some(r.1.position) && 1 <= r.1.position <= 9
      && !IsMark(Cells(s.board)[r.1.position - 1])
      && r.0.moves == s.moves + 1
      && Cells(r.0.board) == Cells(s.board)[r.1.position - 1 := s.current]
  {
    var a := Validation(s.board, input);
    if a.Accepted? then
      var (row, col) := ToCell(a.position);
      assert Cells(Place(s, row, col).board) == Cells(s.board)[a.position - 1 := s.current];
      (AfterMove(s, row, col), a)
    else (s, a)
  }

  /**
   * The `while not game_over` loop fed with a finite list of input lines:
   * lines are consumed until the game is over or none are left.
   */
  function Run(s: State, inputs: seq<Option<int>>): (t: State)
    requires Shaped(s.board)
    ensures Shaped(t.board)
    ensures s.over ==> t == s
    ensures t.moves >= s.moves
    decreases |inputs|
  {
    if s.over || inputs == [] then s else Run(Play(s, inputs[0]).0, inputs[1..])
  }

  /** Reading one line while the game runs: `Run` and `Consumed` continue from `Play`'s state. */
  lemma ReadLine(s: State, inputs: seq<Option<int>>)
    requires Shaped(s.board) && !s.over && inputs != []
    ensures Run(s, inputs) == Run(Play(s, inputs[0]).0, inputs[1..])
    ensures Consumed(s, inputs) == 1 + Consumed(Play(s, inputs[0]).0, inputs[1..])
  {
  }

  /** How many input lines the loop reads: one per prompt, until the game is over or the lines run out. */
  function Consumed(s: State, inputs: seq<Option<int>>): (n: nat)
    requires Shaped(s.board)
    ensures n <= |inputs|
    ensures s.over ==> n == 0
    ensures !s.over && inputs != [] ==> n >= 1
    decreases |inputs|
  {
    if s.over || inputs == [] then 0 else 1 + Consumed(Play(s, inputs[0]).0, inputs[1..])
  }

  /** Feed a list of positions as if each had been typed on its own line. */
  function Typed(positions: seq<int>): (inputs: seq<Option<int>>)
    ensures |inputs| == |positions|
    ensures forall i :: 0 <= i < |positions| ==> inputs[i] == Some(positions[i])
  {
    seq(|positions|, i requires 0 <= i < |positions| => Some(positions[i]))
  }

  // ---------------------------------------------------------------------
  // The invariant of the globals and what it guarantees
  // ---------------------------------------------------------------------

  /**
   * Every cell shows its label or a mark; `moves_made` is the number of
   * taken cells; a running game has no complete line and fewer than nine
   * moves; a finished game has either a winning line of the player who moved
   * last, or nine moves and no line ("Tie").
   */
  ghost predicate Inv(s: State) {
    && Shaped(s.board)
    && (forall p :: 1 <= p <= 9 ==> Cells(s.board)[p - 1] == Label(p) || IsMark(Cells(s.board)[p - 1]))
    && s.moves == CountMarks(Cells(s.board))
    && IsMark(s.current)
    && (!s.over ==> NoLineWins(s.board) && s.moves < 9 && s.winner == "")
    && (s.over ==>
          || (Scan(s.board) == Some(s.current) && s.winner == [s.current])
          || (Scan(s.board) == None && s.moves == 9 && s.winner == "Tie"))
  }

  lemma InitialInv()
    ensures Inv(Initial)
  {
    var cs := Cells(InitialGrid);
    forall p | 1 <= p <= 9 ensures cs[p - 1] == Label(p) {
      assert InitialGrid[ToCell(p).0][ToCell(p).1] == Label(p);
    }
    CountMarksNone(cs);
    assert NoLineWins(InitialGrid);
  }

  /** Under the invariant a position is free exactly when it still shows its own digit. */
  lemma FreeIffLabel(s: State, p: int)
    requires Inv(s) && 1 <= p <= 9
    ensures Validation(s.board, Some(p)).Accepted? <==> Cells(s.board)[p - 1] == Label(p)
  {
  }

  /**
   * A line completed by a move that starts from a board with no complete
   * line goes through the placed cell, so it is the mover's mark.
   */
  lemma {:induction false} NewLineIsMover(g: Grid, r: int, c: int, m: char)
    requires Shaped(g) && 0 <= r < 3 && 0 <= c < 3 && NoLineWins(g) && IsMark(m)
    ensures Shaped(g[r := g[r][c := m]])
    ensures Scan(g[r := g[r][c := m]]).Some? ==> Scan(g[r := g[r][c := m]]) == Some(m)
  {
    var h := g[r := g[r][c := m]];
    ScanSound(h);
    if Scan(h).Some? {
      var w := Scan(h).value;
      forall i | 0 <= i < 3 && RowWins(h, i) ensures h[i][0] == m {
        assert !RowWins(g, i);
      }
      forall j | 0 <= j < 3 && ColWins(h, j) ensures h[0][j] == m {
        assert !ColWins(g, j);
      }
      assert MainDiagWins(h) ==> h[0][0] == m by {
        assert !MainDiagWins(g);
      }
      assert AntiDiagWins(h) ==> h[0][2] == m by {
        assert !AntiDiagWins(g);
      }
    }
  }

  /** Every accepted or rejected line keeps the invariant of a running game. */
  lemma PlayPreservesInv(s: State, input: Option<int>)
    requires Inv(s) && !s.over
    ensures Inv(Play(s, input).0)
  {
    var (t, a) := Play(s, input);
    if a.Accepted? {
      var p := a.position;
      var (r, c) := ToCell(p);
      var placed := Place(s, r, c);
      CountMarksUpdate(Cells(s.board), p - 1, s.current);
      NewLineIsMover(s.board, r, c, s.current);
      ScanSound(placed.board);
      assert Cells(placed.board) == Cells(s.board)[p - 1 := s.current];
    }
  }

  lemma {:induction false} RunPreservesInv(s: State, inputs: seq<Option<int>>)
    requires Inv(s)
    ensures Inv(Run(s, inputs))
    decreases |inputs|
  {
    if !s.over && inputs != [] {
      PlayPreservesInv(s, inputs[0]);
      RunPreservesInv(Play(s, inputs[0]).0, inputs[1..]);
    }
  }

  /**
   * Whatever is typed, the script never counts more than nine moves, nine
   * moves always end the game, the move count equals the taken cells, and a
   * declared winner holds a complete line of its own mark.
   */
  lemma GameIsBounded(inputs: seq<Option<int>>)
    ensures var t := Run(Initial, inputs);
      && t.moves == CountMarks(Cells(t.board)) <= 9
      && (t.moves == 9 ==> t.over)
      && (t.over && t.winner != "Tie" ==> t.winner == [t.current] && Scan(t.board) == Some(t.current))
      && (t.winner == "Tie" ==> t.moves == 9 && NoLineWins(t.board))
  {
    InitialInv();
    RunPreservesInv(Initial, inputs);
    ScanSound(Run(Initial, inputs).board);
  }

  /** A finished game is final: `current_player`, the board and the winner no longer change. */
  lemma OverIsFinal(s: State, inputs: seq<Option<int>>)
    requires Shaped(s.board) && s.over
    ensures Run(s, inputs) == s
  {
  }

  /**
   * The winner announced after an accepted move is the player who made it;
   * a tie is declared only on the ninth move with no complete line; and the
   * turn passes to the other mark exactly when the game goes on.
   */
  lemma MoveOutcome(s: State, input: Option<int>)
    requires Inv(s) && !s.over
    requires Play(s, input).1.Accepted?
    ensures var t := Play(s, input).0;
      && (t.over && t.winner != "Tie" ==> t.winner == [s.current])
      && (t.winner == "Tie" <==> t.over && t.moves == 9 && NoLineWins(t.board))
      && (!t.over <==> t.current == Opponent(s.current))
  {
    PlayPreservesInv(s, input);
    var t := Play(s, input).0;
    ScanSound(t.board);
  }

  // ---------------------------------------------------------------------
  // The script
  // ---------------------------------------------------------------------

  /** The script's globals, with the nested list as a 3x3 array written in place. */
  class ListsGame {
    var board: array2<char>
    var currentPlayer: char
    var gameOver: bool
    var winner: string
    var movesMade: nat

    ghost predicate Valid()
      reads this`board
    {
      board.Length0 == 3 && board.Length1 == 3
    }

    /** The board read row by row, as the nested list holds it. */
    function Grid(): (g: Grid)
      requires Valid()
      reads this`board, board
      ensures Shaped(g)
      ensures forall r, c :: 0 <= r < 3 && 0 <= c < 3 ==> g[r][c] == board[r, c]
    {
      [[board[0, 0], board[0, 1], board[0, 2]],
       [board[1, 0], board[1, 1], board[1, 2]],
       [board[2, 0], board[2, 1], board[2, 2]]]
    }

    function State(): State
      requires Valid()
      reads this, board
    {
      GameState(Grid(), currentPlayer, movesMade, gameOver, winner)
    }

    /** The game set-up section: a board of labels, X to play. */
    constructor ()
      ensures Valid() && fresh(board)
      ensures State() == Initial
    {
      var b := new char[3, 3];
      b[0, 0], b[0, 1], b[0, 2] := '1', '2', '3';
      b[1, 0], b[1, 1], b[1, 2] := '4', '5', '6';
      b[2, 0], b[2, 1], b[2, 2] := '7', '8', '9';
      board := b;
      currentPlayer := 'X';
      gameOver := false;
      winner := "";
      movesMade := 0;
    }

    /** One pass of the validation loop: range check, conversion, occupancy check. */
    method ValidateInput(input: Option<int>) returns (a: Attempt)
      requires Valid()
      ensures a == Validation(Grid(), input)
      ensures a.Accepted? ==> input == Some(a.position)
      ensures a.Accepted? <==>
        input.Some? && 1 <= input.value <= 9 && !IsMark(Cells(Grid())[input.value - 1])
    {
      match input {
        case None =>
          a := NotANumber;
        case Some(position) =>
          if position >= 1 && position <= 9 {
            var row := (position - 1) / 3;
            var col := (position - 1) % 3;
            if board[row, col] !in ['X', 'O'] {
              a := Accepted(position);
            } else {
              a := Taken(position, board[row, col]);
            }
          } else {
            a := OutOfRange(position);
          }
      }
    }

    /** The win scan (rows, columns, diagonals), the tie check and the player switch. */
    method DecideOutcome()
      requires Valid() && !gameOver
      modifies this`gameOver, this`winner, this`currentPlayer
      ensures State() == Decide(old(State()))
    {
      ghost var g := Grid();
      for i := 0 to 3
        invariant !gameOver && winner == old(winner)
        invariant FirstRowFrom(g, 0) == FirstRowFrom(g, i)
      {
        if board[i, 0] == board[i, 1] == board[i, 2] && board[i, 0] in ['X', 'O'] {
          winner := [board[i, 0]];
          gameOver := true;
          break;
        }
      }
      if !gameOver {
        for j := 0 to 3
          invariant !gameOver && winner == old(winner)
          invariant FirstColFrom(g, 0) == FirstColFrom(g, j)
        {
          if board[0, j] == board[1, j] == board[2, j] && board[0, j] in ['X', 'O'] {
            winner := [board[0, j]];
            gameOver := true;
            break;
          }
        }
      }
      if !gameOver {
        if board[0, 0] == board[1, 1] == board[2, 2] && board[0, 0] in ['X', 'O'] {
          winner := [board[0, 0]];
          gameOver := true;
        } else if board[0, 2] == board[1, 1] == board[2, 0] && board[0, 2] in ['X', 'O'] {
          winner := [board[0, 2]];
          gameOver := true;
        }
      }
      if !gameOver && movesMade == 9 {
        winner := "Tie";
        gameOver := true;
      }
      if !gameOver {
        if currentPlayer == 'X' {
          currentPlayer := 'O';
        } else {
          currentPlayer := 'X';
        }
      }
    }

    /** "MAKE THE MOVE": write the mark in place, count it, then settle the outcome. */
    method MakeMove(row: int, col: int)
      requires Valid() && !gameOver && 0 <= row < 3 && 0 <= col < 3
      modifies this, board
      ensures Valid() && board == old(board)
      ensures State() == AfterMove(old(State()), row, col)
    {
      board[row, col] := currentPlayer;
      movesMade := movesMade + 1;
      ghost var g0 := old(Grid());
      ghost var expected := g0[row := g0[row][col := currentPlayer]];
      forall r | 0 <= r < 3
        ensures Grid()[r] == expected[r]
      {
        assert |Grid()[r]| == |expected[r]| == 3;
        forall c | 0 <= c < 3
          ensures Grid()[r][c] == expected[r][c]
        {
        }
      }
      assert Grid() == expected;
      DecideOutcome();
    }

    /**
     * The inner `while not valid_move` loop: read lines from `inputs[from..]`
     * until one is accepted or none are left. Every line before the accepted
     * one is rejected and changes nothing; `next` is the first unread line.
     */
    method ReadMove(inputs: seq<Option<int>>, from: nat) returns (found: bool, row: int, col: int, next: nat)
      requires Valid() && !gameOver && from <= |inputs|
      ensures from <= next <= |inputs|
      ensures 0 <= row < 3 && 0 <= col < 3
      ensures forall i :: from <= i < next - (if found then 1 else 0) ==>
        !Validation(Grid(), inputs[i]).Accepted?
      ensures !found ==> next == |inputs|
      ensures found ==>
        && from < next && inputs[next - 1].Some?
        && Validation(Grid(), inputs[next - 1]).Accepted? && ToCell(inputs[next - 1].value) == (row, col)
      ensures Run(State(), inputs[from..]) ==
        Run(if found then AfterMove(State(), row, col) else State(), inputs[next..])
      ensures Consumed(State(), inputs[from..]) ==
        next - from + Consumed(if found then AfterMove(State(), row, col) else State(), inputs[next..])
    {
      found, row, col, next := false, 0, 0, from;
      ghost var s := State();
      while next < |inputs|
        invariant from <= next <= |inputs|
        invariant forall i :: from <= i < next ==> !Validation(s.board, inputs[i]).Accepted?
        invariant Run(s, inputs[from..]) == Run(s, inputs[next..])
        invariant Consumed(s, inputs[from..]) == next - from + Consumed(s, inputs[next..])
        decreases |inputs| - next
      {
        var a := ValidateInput(inputs[next]);
        ReadLine(s, inputs[next..]);
        assert inputs[next..][1..] == inputs[next + 1..];
        next := next + 1;
        if a.Accepted? {
          found := true;
          row, col := (a.position - 1) / 3, (a.position - 1) % 3;
          assert (row, col) == ToCell(a.position);
          return;
        }
      }
    }

    /**
     * The two nested loops of the script: ask until a line is accepted, make
     * the move, and repeat while the game is not over, on a finite list of
     * input lines. Returns how many lines were read.
     */
    method PlayGame(inputs: seq<Option<int>>) returns (used: nat)
      requires Valid()
      modifies this, board
      ensures Valid() && board == old(board)
      ensures used == Consumed(old(State()), inputs)
      ensures State() == Run(old(State()), inputs)
    {
      used := 0;
      while !gameOver && used < |inputs|
        invariant Valid() && board == old(board)
        invariant used <= |inputs|
        invariant Run(old(State()), inputs) == Run(State(), inputs[used..])
        invariant used + Consumed(State(), inputs[used..]) == Consumed(old(State()), inputs)
        decreases |inputs| - used
      {
        var validMove, row, col, next := ReadMove(inputs, used);
        used := next;
        if validMove {
          MakeMove(row, col);
        }
      }
    }
  }
}
