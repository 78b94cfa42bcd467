/**
 * Whole runs of the two game scripts under the test harness: how many
 * input lines each script reads, whether it reaches its last statement or
 * stops at the end of its input, and what `test_single_game` and
 * `test_game_comparison` then report.
 *
 * The nested-list script asks "Would you like to play again?" after the
 * final board and reads one more line; the dictionary script does not.
 * The harness types only the moves, so the nested-list script meets the
 * end of its input at that prompt on every test case.
 */
module TicTacToeSessions {
  import opened Wrappers
  import opened Text
  import opened TicTacToe
  import L = TicTacToeLists
  import D = TicTacToeDict
  import opened TicTacToeReplay
  import opened TicTacToeVectors
  import opened TicTacToeHarness
  import E = TicTacToeEquivalence

  // ---------------------------------------------------------------------
  // How many lines the nested-list script reads
  // ---------------------------------------------------------------------

  /** Each line read adds at most one move. */
  lemma {:induction false} MovesBound(s: L.State, inputs: seq<Option<int>>)
    requires L.Shaped(s.board)
    ensures L.Run(s, inputs).moves <= s.moves + |inputs|
    decreases |inputs|
  {
    if !s.over && inputs != [] {
      MovesBound(L.Play(s, inputs[0]).0, inputs[1..]);
    }
  }

  /** While the game is running before the last line, the loop reads every line. */
  lemma {:induction false} ConsumedAll(s: L.State, inputs: seq<Option<int>>)
    requires L.Shaped(s.board) && inputs != []
    requires !L.Run(s, inputs[..|inputs| - 1]).over
    ensures L.Consumed(s, inputs) == |inputs|
    decreases |inputs|
  {
    var n := |inputs|;
    assert !s.over;
    var s' := L.Play(s, inputs[0]).0;
    if n > 1 {
      assert inputs[..n - 1] != [];
      L.ReadLine(s, inputs[..n - 1]);
      assert inputs[..n - 1][1..] == inputs[1..][..n - 2];
      ConsumedAll(s', inputs[1..]);
    }
  }

  /** Once the game is over, a further line is left unread. */
  lemma {:induction false} ConsumedStops(s: L.State, xs: seq<Option<int>>, x: Option<int>)
    requires L.Shaped(s.board) && L.Run(s, xs).over
    ensures L.Consumed(s, xs + [x]) == L.Consumed(s, xs)
    decreases |xs|
  {
    if !s.over {
      assert xs != [];
      assert (xs + [x])[1..] == xs[1..] + [x];
      ConsumedStops(L.Play(s, xs[0]).0, xs[1..], x);
    }
  }

  // ---------------------------------------------------------------------
  // How a script run ends
  // ---------------------------------------------------------------------

  /**
   * A script either reaches its last statement, or an `input()` meets the
   * end of the piped text and the uncaught `EOFError` stops it.
   */
  datatype Ending = Completed | EndOfInput

  /** The process's return code: 0 after the last statement, 1 after an uncaught exception. */
  function ExitCode(e: Ending): (code: int)
    ensures code == 0 <==> e == Completed
  {
    if e == Completed then 0 else 1
  }

  /**
   * The nested-list script reads a line per prompt until the game is over,
   * then one more line for the play-again question.
   */
  function ListsScriptEnding(lines: seq<Option<int>>): Ending {
    if L.Run(L.Initial, lines).over && L.Consumed(L.Initial, lines) < |lines| then Completed else EndOfInput
  }

  /** The dictionary script reads a line per prompt until the game is over, and nothing after it. */
  function DictScriptEnding(lines: seq<Option<int>>): Ending {
    if D.Run(D.Initial, lines).over then Completed else EndOfInput
  }

  /** `test_single_game`: a crash fails the test; otherwise the output must announce the expected result. */
  predicate SingleGamePasses(returnCode: int, stdout: string, expected: string) {
    returnCode == 0 && CheckWinInOutput(stdout, expected)
  }

  /** `test_game_comparison`: both scripts must finish, and both outputs must announce X. */
  predicate ComparisonPasses(listsCode: int, dictCode: int, listsOut: string, dictOut: string) {
    listsCode == 0 && dictCode == 0 && CheckWinInOutput(listsOut, "X") && CheckWinInOutput(dictOut, "X")
  }

  /**
   * When the last line is the one that ends the game, or the game never
   * ends, the loop reads every line.
   */
  lemma ConsumedUnlessEarly(s: L.State, lines: seq<Option<int>>)
    requires L.Shaped(s.board) && lines != []
    requires var t := L.Run(s, lines); !t.over || t.moves == s.moves + |lines|
    ensures L.Consumed(s, lines) == |lines|
  {
    var n := |lines|;
    var xs := lines[..n - 1];
    assert lines == xs + [lines[n - 1]];
    RunAppend(s, xs, lines[n - 1]);
    MovesBound(s, xs);
    ConsumedAll(s, lines);
  }

  /** So the nested-list script has no line left for the play-again question. */
  lemma EndOfInputUnlessEarly(lines: seq<Option<int>>)
    requires lines != []
    requires var t := L.Run(L.Initial, lines); !t.over || t.moves == |lines|
    ensures ListsScriptEnding(lines) == EndOfInput
  {
    L.InitialInv();
    ConsumedUnlessEarly(L.Initial, lines);
  }

  /** Under the harness's input, a run that ends on the last move or not at all crashes the nested-list script. */
  predicate EndsOnLastMove(moves: seq<int>) {
    var t := Outcome(moves);
    !t.over || t.moves == |moves|
  }

  // ---------------------------------------------------------------------
  // The test cases as written
  // ---------------------------------------------------------------------

  /**
   * What each entry of the table does in both engines: "Basic Diagonal Win"
   * leaves the game waiting for O, "Tie Game" is won by X, and every other
   * case ends on its last move with the expected result.
   */
  lemma CaseAsWritten(k: nat)
    requires k < |TestCases|
    ensures k == 0 ==> BothAwait(TestCases[k].moves, 'O')
    ensures k == 9 ==> BothDeclare(TestCases[k].moves, "X")
    ensures k != 0 && k != 9 ==> BothDeclare(TestCases[k].moves, TestCases[k].expected)
  {
    if k == 0 {
      assert TestCases[0].moves == [5, 1, 3, 7, 9];
      DiagonalVectorAsWritten();
    } else if k == 1 || k == 10 {
      assert TestCases[k].moves == [1, 4, 2, 5, 3] && TestCases[k].expected == "X";
      TopRowWin();
    } else if k == 2 {
      assert TestCases[2].moves == [4, 1, 5, 2, 6] && TestCases[2].expected == "X";
      MiddleRowWin();
    } else if k == 3 {
      assert TestCases[3].moves == [7, 1, 8, 2, 9] && TestCases[3].expected == "X";
      BottomRowWin();
    } else if k == 4 {
      assert TestCases[4].moves == [1, 2, 4, 3, 7] && TestCases[4].expected == "X";
      LeftColumnWin();
    } else if k == 5 {
      assert TestCases[5].moves == [2, 1, 5, 3, 8] && TestCases[5].expected == "X";
      MiddleColumnWin();
    } else if k == 6 {
      assert TestCases[6].moves == [3, 1, 6, 2, 9] && TestCases[6].expected == "X";
      RightColumnWin();
    } else if k == 7 {
      assert TestCases[7].moves == [3, 1, 5, 2, 7] && TestCases[7].expected == "X";
      AntiDiagonalWin();
    } else if k == 8 {
      assert TestCases[8].moves == [1, 5, 2, 4, 8, 6] && TestCases[8].expected == "O";
      OWinsMiddleRow();
    } else {
      assert TestCases[9].moves == [1, 2, 3, 4, 5, 6, 8, 7, 9];
      TieVectorAsWritten();
    }
  }

  /**
   * Every win-condition test fails on the nested-list script whatever it
   * prints: the harness's input runs out at the play-again question.
   */
  lemma ListsWinTestCrashes(k: nat, stdout: string)
    requires k < |TestCases|
    ensures ListsScriptEnding(L.Typed(TestCases[k].moves)) == EndOfInput
    ensures !SingleGamePasses(ExitCode(ListsScriptEnding(L.Typed(TestCases[k].moves))), stdout, TestCases[k].expected)
  {
    var moves := TestCases[k].moves;
    CaseAsWritten(k);
    assert EndsOnLastMove(moves);
    EndOfInputUnlessEarly(L.Typed(moves));
  }

  /** The comparison test types the "Basic Diagonal Win" moves and fails whatever either script prints. */
  lemma ComparisonFails(listsOut: string, dictOut: string)
    ensures var lines := L.Typed([5, 1, 3, 7, 9]);
      !ComparisonPasses(ExitCode(ListsScriptEnding(lines)), ExitCode(DictScriptEnding(lines)), listsOut, dictOut)
  {
    DiagonalVectorAsWritten();
    EndOfInputUnlessEarly(L.Typed([5, 1, 3, 7, 9]));
  }

  // ---------------------------------------------------------------------
  // The corrected harness
  // ---------------------------------------------------------------------

  /** The corrected table: the diagonal and tie vectors replaced, everything else as written. */
  const CorrectedTestCases: seq<TestCase> :=
    TestCases[0 := TestCases[0].(moves := [5, 3, 1, 7, 9])][9 := TestCases[9].(moves := [1, 2, 3, 4, 5, 7, 6, 9, 8])]

  /** The corrected input: the moves, then an answer "n" to the play-again question. */
  function SessionInput(moves: seq<int>): string {
    SimulateGameInput(moves) + "n\n"
  }

  /** The lines the scripts read from `SessionInput(moves)`: "n" is no number. */
  function SessionLines(moves: seq<int>): (lines: seq<Option<int>>)
    ensures |lines| == |moves| + 1 && lines[..|moves|] == L.Typed(moves) && lines[|moves|] == None
  {
    L.Typed(moves) + [None]
  }

  /** With the answer line supplied, a game that ends reaches the last statement in both scripts. */
  lemma SessionCompletes(moves: seq<int>)
    requires Outcome(moves).over
    ensures ListsScriptEnding(SessionLines(moves)) == Completed
    ensures DictScriptEnding(SessionLines(moves)) == Completed
  {
    var lines := L.Typed(moves);
    L.InitialInv();
    RunAppend(L.Initial, lines, None);
    ConsumedStops(L.Initial, lines, None);
    E.EnginesAgree(SessionLines(moves));
  }

  /** Every corrected vector ends the game with the table's expected result. */
  lemma CorrectedCaseDeclares(k: nat)
    requires k < |CorrectedTestCases|
    ensures BothDeclare(CorrectedTestCases[k].moves, CorrectedTestCases[k].expected)
  {
    if k == 0 {
      assert CorrectedTestCases[0].moves == [5, 3, 1, 7, 9] && CorrectedTestCases[0].expected == "X";
      DiagonalVectorCorrected();
    } else if k == 9 {
      assert CorrectedTestCases[9].moves == [1, 2, 3, 4, 5, 7, 6, 9, 8] && CorrectedTestCases[9].expected == "Tie";
      TieVectorCorrected();
    } else {
      assert CorrectedTestCases[k] == TestCases[k];
      CaseAsWritten(k);
    }
  }

  /**
   * Under the corrected input both scripts finish every corrected test
   * case, so each test passes on any output that includes the script's
   * announcement of the expected result.
   */
  lemma CorrectedTestPasses(k: nat, listsOut: string, dictOut: string)
    requires k < |CorrectedTestCases|
    requires Contains(listsOut, Announcement(CorrectedTestCases[k].expected))
    requires Contains(dictOut, Announcement(CorrectedTestCases[k].expected))
    ensures SingleGamePasses(ExitCode(ListsScriptEnding(SessionLines(CorrectedTestCases[k].moves))), listsOut, CorrectedTestCases[k].expected)
    ensures SingleGamePasses(ExitCode(DictScriptEnding(SessionLines(CorrectedTestCases[k].moves))), dictOut, CorrectedTestCases[k].expected)
  {
    var tc := CorrectedTestCases[k];
    CorrectedCaseDeclares(k);
    assert tc.expected in {"X", "O", "Tie"};
    SessionCompletes(tc.moves);
    AnnouncementPasses(listsOut, tc.expected);
    AnnouncementPasses(dictOut, tc.expected);
  }

  /** The comparison test on the corrected diagonal and the corrected input passes. */
  lemma CorrectedComparisonPasses(listsOut: string, dictOut: string)
    requires Contains(listsOut, Announcement("X")) && Contains(dictOut, Announcement("X"))
    ensures var lines := SessionLines([5, 3, 1, 7, 9]);
      ComparisonPasses(ExitCode(ListsScriptEnding(lines)), ExitCode(DictScriptEnding(lines)), listsOut, dictOut)
  {
    DiagonalVectorCorrected();
    SessionCompletes([5, 3, 1, 7, 9]);
    AnnouncementPasses(listsOut, "X");
    AnnouncementPasses(dictOut, "X");
  }
}
