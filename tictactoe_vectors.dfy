/**
 * The move lists of the tic-tac-toe test harness, played through the
 * nested-list engine and, through the equivalence of the two engines,
 * through the dictionary engine as well.
 */
module TicTacToeVectors {
  import opened Wrappers
  import opened TicTacToe
  import L = TicTacToeLists
  import D = TicTacToeDict
  import E = TicTacToeEquivalence
  import opened TicTacToeReplay

  /** The final globals of both engines after typing `moves`, one per line. */
  function Outcome(moves: seq<int>): (t: L.State)
    ensures L.Shaped(t.board)
    ensures E.ToDictState(t) == D.Run(D.Initial, L.Typed(moves))
  {
    E.EnginesAgree(L.Typed(moves));
    L.Run(L.Initial, L.Typed(moves))
  }

  /** Both engines end the game on the last of `moves`, every one of them a move, and announce `w`. */
  predicate BothDeclare(moves: seq<int>, w: string) {
    var t := D.Run(D.Initial, L.Typed(moves));
    && Outcome(moves).over && Outcome(moves).winner == w && Outcome(moves).moves == |moves|
    && t.over && t.winner == w
  }

  /** The board after `ms` is the nine cells `cs` when each move's cell shows its mark and every other cell its label. */
  lemma MarkedIs(ms: seq<int>, cs: seq<char>)
    requires DistinctPositions(ms) && |cs| == 9
    requires forall i :: 0 <= i < |ms| ==> cs[ms[i] - 1] == Mark(i)
    requires forall p :: 1 <= p <= 9 && p !in ms ==> cs[p - 1] == Label(p)
    ensures Board(ms) == Rows(cs)
  {
    MarkedCells(ms);
    forall k | 0 <= k < 9 ensures Marked(ms)[k] == cs[k] {
      if k + 1 in ms {
        var i :| 0 <= i < |ms| && ms[i] == k + 1;
      }
    }
    assert Marked(ms) == cs;
  }

  /** Both engines are still running after `moves` and prompt `player` next. */
  predicate BothAwait(moves: seq<int>, player: char) {
    var t := D.Run(D.Initial, L.Typed(moves));
    && !Outcome(moves).over && Outcome(moves).winner == "" && Outcome(moves).current == player
    && !t.over && t.winner == "" && t.current == player
  }

  /** A last move that completes the first line wins the game for its mover, in both engines. */
  lemma LastMoveWins(v: seq<int>)
    requires DistinctPositions(v) && 1 <= |v| <= 9
    requires L.NoLineWins(Board(v[..|v| - 1])) && !L.NoLineWins(Board(v))
    ensures BothDeclare(v, [Mark(|v| - 1)])
  {
    WinningMove(v);
  }

  /** A move after a quiet stretch that completes a line wins the game for its mover, in both engines. */
  lemma NewLineWins(pre: seq<int>, p: int)
    requires DistinctPositions(pre) && 1 <= p <= 9 && p !in pre && |pre| < 9
    requires L.NoLineWins(Board(pre)) && !L.NoLineWins(Board(pre + [p]))
    ensures BothDeclare(pre + [p], [Mark(|pre|)])
  {
    DecidingMove(pre, p);
    L.ScanSound(Board(pre + [p]));
  }

  /** A five-move list of distinct positions whose board shows a complete line is an X win. */
  lemma FifthMoveWins(v: seq<int>)
    requires DistinctPositions(v) && |v| == 5 && !L.NoLineWins(Board(v))
    ensures BothDeclare(v, "X")
  {
    EarliestWin(v[..4]);
    LastMoveWins(v);
  }

  /** "Top Row Win" and "Minimum Moves Win": X takes 1, 2, 3. */
  lemma TopRowWin()
    ensures BothDeclare([1, 4, 2, 5, 3], "X")
  {
    var v := [1, 4, 2, 5, 3];
    MarkedCells(v);
    assert v[0] == 1 && v[2] == 2 && v[4] == 3;
    assert L.RowWins(Board(v), 0);
    FifthMoveWins(v);
  }

  /** "Middle Row Win": X takes 4, 5, 6. */
  lemma MiddleRowWin()
    ensures BothDeclare([4, 1, 5, 2, 6], "X")
  {
    var v := [4, 1, 5, 2, 6];
    MarkedCells(v);
    assert v[0] == 4 && v[2] == 5 && v[4] == 6;
    assert L.RowWins(Board(v), 1);
    FifthMoveWins(v);
  }

  /** "Bottom Row Win": X takes 7, 8, 9. */
  lemma BottomRowWin()
    ensures BothDeclare([7, 1, 8, 2, 9], "X")
  {
    var v := [7, 1, 8, 2, 9];
    MarkedCells(v);
    assert v[0] == 7 && v[2] == 8 && v[4] == 9;
    assert L.RowWins(Board(v), 2);
    FifthMoveWins(v);
  }

  /** "Left Column Win": X takes 1, 4, 7. */
  lemma LeftColumnWin()
    ensures BothDeclare([1, 2, 4, 3, 7], "X")
  {
    var v := [1, 2, 4, 3, 7];
    MarkedCells(v);
    assert v[0] == 1 && v[2] == 4 && v[4] == 7;
    assert L.ColWins(Board(v), 0);
    FifthMoveWins(v);
  }

  /** "Middle Column Win": X takes 2, 5, 8. */
  lemma MiddleColumnWin()
    ensures BothDeclare([2, 1, 5, 3, 8], "X")
  {
    var v := [2, 1, 5, 3, 8];
    MarkedCells(v);
    assert v[0] == 2 && v[2] == 5 && v[4] == 8;
    assert L.ColWins(Board(v), 1);
    FifthMoveWins(v);
  }

  /** "Right Column Win": X takes 3, 6, 9. */
  lemma RightColumnWin()
    ensures BothDeclare([3, 1, 6, 2, 9], "X")
  {
    var v := [3, 1, 6, 2, 9];
    MarkedCells(v);
    assert v[0] == 3 && v[2] == 6 && v[4] == 9;
    assert L.ColWins(Board(v), 2);
    FifthMoveWins(v);
  }

  /** "Anti-Diagonal Win": X takes 3, 5, 7. */
  lemma AntiDiagonalWin()
    ensures BothDeclare([3, 1, 5, 2, 7], "X")
  {
    var v := [3, 1, 5, 2, 7];
    MarkedCells(v);
    assert v[0] == 3 && v[2] == 5 && v[4] == 7;
    assert L.AntiDiagWins(Board(v));
    FifthMoveWins(v);
  }

  /** "O Wins Test": X holds 1, 2, 8 after five moves, and O completes 4-5-6 on the sixth. */
  lemma OWinsMiddleRow()
    ensures BothDeclare([1, 5, 2, 4, 8, 6], "O")
  {
    var v := [1, 5, 2, 4, 8, 6];
    assert v[..5] == [1, 5, 2, 4, 8];
    MarkedIs(v[..5], "XX3OO67X9");
    assert L.NoLineWins(Rows("XX3OO67X9"));
    MarkedCells(v);
    assert v[1] == 5 && v[3] == 4 && v[5] == 6;
    assert L.RowWins(Board(v), 1);
    WinningMove(v);
  }

  // ---------------------------------------------------------------------
  // The two vectors that do not do what their test case says
  // ---------------------------------------------------------------------

  /**
   * "Basic Diagonal Win" (and the comparison test) types 5, 1, 3, 7, 9: X
   * holds 5, 3 and 9, which is no line, so after five moves neither engine
   * has a winner and both wait for O's next position.
   */
  lemma DiagonalVectorAsWritten()
    ensures BothAwait([5, 1, 3, 7, 9], 'O')
  {
    var v := [5, 1, 3, 7, 9];
    MarkedIs(v, "O2X4X6O8X");
    assert L.NoLineWins(Rows("O2X4X6O8X"));
    QuietRun(v);
  }

  /** Typing 5, 3, 1, 7, 9 gives X the main diagonal 1-5-9 on the fifth move. */
  lemma DiagonalVectorCorrected()
    ensures BothDeclare([5, 3, 1, 7, 9], "X")
  {
    var v := [5, 3, 1, 7, 9];
    MarkedCells(v);
    assert v[0] == 5 && v[2] == 1 && v[4] == 9;
    assert L.MainDiagWins(Board(v));
    FifthMoveWins(v);
  }

  /**
   * "Tie Game" types 1, 2, 3, 4, 5, 6, 8, 7, 9: the first eight moves
   * complete no line, and the ninth gives X the main diagonal 1-5-9, so
   * both engines announce X rather than a tie.
   */
  lemma TieVectorAsWritten()
    ensures BothDeclare([1, 2, 3, 4, 5, 6, 8, 7, 9], "X")
  {
    var v := [1, 2, 3, 4, 5, 6, 8, 7, 9];
    var pre := [1, 2, 3, 4, 5, 6, 8, 7];
    assert v == pre + [9];
    TieVectorBoards();
    NewLineWins(pre, 9);
  }

  /** The boards of the "Tie Game" vector before and after its ninth move. */
  lemma TieVectorBoards()
    ensures L.NoLineWins(Board([1, 2, 3, 4, 5, 6, 8, 7]))
    ensures L.MainDiagWins(Board([1, 2, 3, 4, 5, 6, 8, 7, 9]))
  {
    MarkedIs([1, 2, 3, 4, 5, 6, 8, 7], "XOXOXOOX9");
    assert L.NoLineWins(Rows("XOXOXOOX9"));
    MarkedIs([1, 2, 3, 4, 5, 6, 8, 7, 9], "XOXOXOOXX");
    assert L.MainDiagWins(Rows("XOXOXOOXX"));
  }

  /** Typing 1, 2, 3, 4, 5, 7, 6, 9, 8 fills the board with no line: a tie. */
  lemma TieVectorCorrected()
    ensures BothDeclare([1, 2, 3, 4, 5, 7, 6, 9, 8], "Tie")
  {
    var v := [1, 2, 3, 4, 5, 7, 6, 9, 8];
    MarkedIs(v, "XOXOXXOXO");
    assert L.NoLineWins(Rows("XOXOXXOXO"));
    FullBoardTie(v);
  }
}
