/**
 * The two tic-tac-toe scripts play the same game. The nested-list board
 * and the dictionary board are related by position p living at row
 * `(p - 1) // 3`, column `(p - 1) % 3`; under that relation every input
 * line is accepted or rejected alike, the loop-based scan and the explicit
 * elif chain name the same winner, and any sequence of input lines leads
 * to corresponding final states.
 */
module TicTacToeEquivalence {
  import opened Wrappers
  import opened TicTacToe
  import L = TicTacToeLists
  import D = TicTacToeDict

  /** The dictionary a nested-list board stands for. */
  function ToDict(g: L.Grid): (m: D.Board)
    requires L.Shaped(g)
    ensures D.Full(m)
    ensures forall p :: 1 <= p <= 9 ==> m[p] == L.Cells(g)[p - 1]
  {
    map p | 1 <= p <= 9 :: g[L.ToCell(p).0][L.ToCell(p).1]
  }

  function ToDictState(s: L.State): (t: D.State)
    requires L.Shaped(s.board)
    ensures D.Full(t.board)
    ensures t.current == s.current && t.moves == s.moves && t.over == s.over && t.winner == s.winner
  {
    GameState(ToDict(s.board), s.current, s.moves, s.over, s.winner)
  }

  /** Both scripts start from the same position. */
  lemma InitialCorresponds()
    ensures ToDictState(L.Initial) == D.Initial
  {
    var g := L.InitialGrid;
    var m := ToDict(g);
    assert m[1] == g[0][0] == '1' && m[2] == g[0][1] == '2' && m[3] == g[0][2] == '3';
    assert m[4] == g[1][0] == '4' && m[5] == g[1][1] == '5' && m[6] == g[1][2] == '6';
    assert m[7] == g[2][0] == '7' && m[8] == g[2][1] == '8' && m[9] == g[2][2] == '9';
    assert m.Keys == D.InitialBoard.Keys;
    assert forall p :: p in m ==> m[p] == D.InitialBoard[p];
    assert m == D.InitialBoard;
  }

  /** The range and occupancy checks agree: `board[row][col]` is `board[position]`. */
  lemma ValidationCorresponds(g: L.Grid, input: Option<int>)
    requires L.Shaped(g)
    ensures D.Validation(ToDict(g), input) == L.Validation(g, input)
  {
  }

  /**
   * The loop-based scan (rows, then columns, then the two diagonals) and the
   * explicit chain of eight lines report the same result on every board.
   */
  lemma ScanCorresponds(g: L.Grid)
    requires L.Shaped(g)
    ensures D.Scan(ToDict(g)) == L.Scan(g)
  {
    var m := ToDict(g);
    assert m[1] == g[0][0] && m[2] == g[0][1] && m[3] == g[0][2];
    assert m[4] == g[1][0] && m[5] == g[1][1] && m[6] == g[1][2];
    assert m[7] == g[2][0] && m[8] == g[2][1] && m[9] == g[2][2];
    assert L.FirstRowFrom(g, 3) == None && L.FirstColFrom(g, 3) == None;
  }

  /** Writing cell (row, col) of the list is writing key p of the dictionary. */
  lemma PlaceCorresponds(s: L.State, p: int)
    requires L.Shaped(s.board) && 1 <= p <= 9
    ensures ToDictState(L.Place(s, L.ToCell(p).0, L.ToCell(p).1)) == D.Place(ToDictState(s), p)
  {
    var (r, c) := L.ToCell(p);
    var after := ToDict(L.Place(s, r, c).board);
    var expected := ToDict(s.board)[p := s.current];
    forall q | 1 <= q <= 9 ensures after[q] == expected[q] {
      var (r', c') := L.ToCell(q);
      assert (r', c') == (r, c) <==> q == p;
    }
    assert after == expected;
  }

  /** One input line does the same thing to both scripts. */
  lemma PlayCorresponds(s: L.State, input: Option<int>)
    requires L.Shaped(s.board) && !s.over
    ensures D.Play(ToDictState(s), input).1 == L.Play(s, input).1
    ensures D.Play(ToDictState(s), input).0 == ToDictState(L.Play(s, input).0)
  {
    ValidationCorresponds(s.board, input);
    var a := L.Validation(s.board, input);
    if a.Accepted? {
      var p := a.position;
      var (r, c) := L.ToCell(p);
      PlaceCorresponds(s, p);
      ScanCorresponds(L.Place(s, r, c).board);
    }
  }

  /** Any sequence of input lines leads both scripts to corresponding states. */
  lemma {:induction false} RunCorresponds(s: L.State, inputs: seq<Option<int>>)
    requires L.Shaped(s.board)
    ensures D.Run(ToDictState(s), inputs) == ToDictState(L.Run(s, inputs))
    decreases |inputs|
  {
    if !s.over && inputs != [] {
      PlayCorresponds(s, inputs[0]);
      RunCorresponds(L.Play(s, inputs[0]).0, inputs[1..]);
    }
  }

  /** From the start of a game, the two scripts end in the same state on every input. */
  lemma EnginesAgree(inputs: seq<Option<int>>)
    ensures D.Run(D.Initial, inputs) == ToDictState(L.Run(L.Initial, inputs))
  {
    InitialCorresponds();
    RunCorresponds(L.Initial, inputs);
  }

  /**
   * The guarantees of the nested-list game carry over to the dictionary
   * game: never more than nine moves, each one a taken key, nine moves end
   * the game, a declared winner owns a complete line, a tie has none.
   */
  lemma DictGameIsBounded(inputs: seq<Option<int>>)
    ensures var t := D.Run(D.Initial, inputs);
      && t.moves == CountMarks(D.Cells(t.board)) <= 9
      && (t.moves == 9 ==> t.over)
      && (t.over && t.winner != "Tie" ==> t.winner == [t.current] && D.Scan(t.board) == Some(t.current))
      && (t.winner == "Tie" ==> t.moves == 9 && D.NoLineWins(t.board))
  {
    var u := L.Run(L.Initial, inputs);
    var t := D.Run(D.Initial, inputs);
    EnginesAgree(inputs);
    assert t == ToDictState(u);
    L.GameIsBounded(inputs);
    assert D.Cells(t.board) == L.Cells(u.board);
    ScanCorresponds(u.board);
    assert D.Scan(t.board) == L.Scan(u.board);
    if t.winner == "Tie" {
      L.ScanSound(u.board);
      D.ScanSound(t.board);
    }
  }
}
