/**
 * The tic-tac-toe test harness (test_games.py): the simulated keyboard
 * input, the winner check on a game's output, the table of test cases and
 * the runners' counters. Running a game file in a subprocess is not
 * modelled; its outcomes reach the counters as parameters.
 */
module TicTacToeHarness {
  import opened Wrappers
  import opened Text

  // ---------------------------------------------------------------------
  // simulate_game_input
  // ---------------------------------------------------------------------

  /** `str(move) for move in moves_list`. */
  function Decimals(moves: seq<int>): (parts: seq<string>)
    ensures |parts| == |moves|
    ensures forall i :: 0 <= i < |moves| ==> parts[i] == IntToString(moves[i])
  {
    seq(|moves|, i requires 0 <= i < |moves| => IntToString(moves[i]))
  }

  /** The moves' decimal strings joined by newlines, plus a final newline. */
  function SimulateGameInput(moves: seq<int>): (r: string)
    ensures |r| >= 1 && r[|r| - 1] == '\n'
  {
    Join("\n", Decimals(moves)) + "\n"
  }

  /** One more move adds its decimal string and one newline at the end. */
  lemma SimulateAppend(moves: seq<int>, m: int)
    requires moves != []
    ensures SimulateGameInput(moves + [m]) == SimulateGameInput(moves) + IntToString(m) + "\n"
  {
    assert Decimals(moves + [m]) == Decimals(moves) + [IntToString(m)];
    JoinAppend("\n", Decimals(moves), IntToString(m));
  }

  /** Appending a digit and a newline to an alternating layout keeps it alternating. */
  lemma LayoutStep(init: seq<int>, m: int, r0: string, r: string)
    requires 0 <= m <= 9 && forall i :: 0 <= i < |init| ==> 0 <= init[i] <= 9
    requires |r0| == 2 * |init|
    requires forall i :: 0 <= i < |init| ==> r0[2 * i] == DigitChar(init[i]) && r0[2 * i + 1] == '\n'
    requires r == r0 + [DigitChar(m), '\n']
    ensures |r| == 2 * |init + [m]|
    ensures forall i :: 0 <= i < |init + [m]| ==> r[2 * i] == DigitChar((init + [m])[i]) && r[2 * i + 1] == '\n'
  {
    var moves := init + [m];
    forall i | 0 <= i < |moves| ensures r[2 * i] == DigitChar(moves[i]) && r[2 * i + 1] == '\n' {
      if i < |init| {
        assert r[2 * i] == r0[2 * i] && r[2 * i + 1] == r0[2 * i + 1];
        assert moves[i] == init[i];
      }
    }
  }

  /** With single-digit moves the input alternates digit and newline, one pair per move. */
  lemma {:induction false} SingleDigitLayout(moves: seq<int>)
    requires moves != [] && forall i :: 0 <= i < |moves| ==> 0 <= moves[i] <= 9
    ensures |SimulateGameInput(moves)| == 2 * |moves|
    ensures forall i :: 0 <= i < |moves| ==>
      SimulateGameInput(moves)[2 * i] == DigitChar(moves[i]) && SimulateGameInput(moves)[2 * i + 1] == '\n'
    decreases |moves|
  {
    var n := |moves|;
    if n == 1 {
      assert SimulateGameInput(moves) == [DigitChar(moves[0]), '\n'];
    } else {
      var init := moves[..n - 1];
      var m := moves[n - 1];
      assert moves == init + [m];
      SingleDigitLayout(init);
      SimulateAppend(init, m);
      LayoutStep(init, m, SimulateGameInput(init), SimulateGameInput(moves));
    }
  }

  /**
   * With single-digit moves the input is twice as long as the list, and the
   * newlines, one per move, sit exactly at the odd offsets.
   */
  lemma SingleDigitInput(moves: seq<int>)
    requires moves != [] && forall i :: 0 <= i < |moves| ==> 0 <= moves[i] <= 9
    ensures var r := SimulateGameInput(moves);
      && |r| == 2 * |moves|
      && (forall j :: 0 <= j < |r| ==> (r[j] == '\n' <==> j % 2 == 1))
  {
    var r := SimulateGameInput(moves);
    SingleDigitLayout(moves);
    forall j | 0 <= j < |r| ensures r[j] == '\n' <==> j % 2 == 1 {
      var i := j / 2;
      if j % 2 == 0 {
        assert j == 2 * i && r[j] == DigitChar(moves[i]);
      } else {
        assert j == 2 * i + 1;
      }
    }
  }

  // ---------------------------------------------------------------------
  // check_win_in_output
  // ---------------------------------------------------------------------

  /** Does the output announce the expected result? The test is on the lower-cased output. */
  function CheckWinInOutput(output: string, expected: string): bool {
    var lowered := Lower(output);
    if expected == "X" then In("player x wins", lowered) || In("x wins", lowered)
    else if expected == "O" then In("player o wins", lowered) || In("o wins", lowered)
    else if expected == "Tie" then In("tie", lowered) || In("draw", lowered)
    else false
  }

  /**
   * The "player x wins" test is subsumed by "x wins" (and likewise for O),
   * so the check is plain containment of "x wins", "o wins", or "tie" or
   * "draw"; any other expected value is never found.
   */
  lemma CheckWinReduces(output: string, expected: string)
    ensures expected == "X" ==> (CheckWinInOutput(output, expected) <==> Contains(Lower(output), "x wins"))
    ensures expected == "O" ==> (CheckWinInOutput(output, expected) <==> Contains(Lower(output), "o wins"))
    ensures expected == "Tie" ==>
      (CheckWinInOutput(output, expected) <==> Contains(Lower(output), "tie") || Contains(Lower(output), "draw"))
    ensures expected !in {"X", "O", "Tie"} ==> !CheckWinInOutput(output, expected)
  {
    var lowered := Lower(output);
    assert OccursAt("player x wins", "x wins", 7);
    assert OccursAt("player o wins", "o wins", 7);
    if Contains(lowered, "player x wins") {
      ContainsTransitive(lowered, "player x wins", "x wins");
    }
    if Contains(lowered, "player o wins") {
      ContainsTransitive(lowered, "player o wins", "o wins");
    }
  }

  /** What a game script prints when the game is over, before the final board. */
  function Announcement(winner: string): string {
    if winner == "Tie" then "The game ended in a " + "tie" + "!\nBoth players played well!\n"
    else "Congratulations! Player " + (winner + " wins") + ("!\nPlayer " + winner + " got three in a row!\n")
  }

  /** The words the winner check looks for, as they appear in the announcement. */
  function AnnouncedWords(winner: string): string {
    if winner == "Tie" then "tie" else winner + " wins"
  }

  lemma AnnouncementMentions(winner: string)
    ensures Contains(Announcement(winner), AnnouncedWords(winner))
  {
    if winner == "Tie" {
      OccursBetween("The game ended in a ", "tie", "!\nBoth players played well!\n");
    } else {
      OccursBetween("Congratulations! Player ", winner + " wins", "!\nPlayer " + winner + " got three in a row!\n");
    }
  }

  /** Output that includes a finished game's announcement passes the check for that result. */
  lemma AnnouncementPasses(output: string, winner: string)
    requires winner in {"X", "O", "Tie"}
    requires Contains(output, Announcement(winner))
    ensures CheckWinInOutput(output, winner)
  {
    AnnouncementMentions(winner);
    var words := AnnouncedWords(winner);
    ContainsTransitive(output, Announcement(winner), words);
    LowerContains(output, words);
    LowerWords(winner);
    CheckWinReduces(output, winner);
  }

  /** The lower-cased words are the ones the winner check looks for. */
  lemma LowerWords(winner: string)
    ensures winner == "X" ==> Lower(AnnouncedWords(winner)) == "x wins"
    ensures winner == "O" ==> Lower(AnnouncedWords(winner)) == "o wins"
    ensures winner == "Tie" ==> Lower(AnnouncedWords(winner)) == "tie"
  {
    if winner == "X" {
      assert AnnouncedWords(winner) == "X wins";
    } else if winner == "O" {
      assert AnnouncedWords(winner) == "O wins";
    }
  }

  // ---------------------------------------------------------------------
  // The test-case table and the lookup by name
  // ---------------------------------------------------------------------

  datatype TestCase = TestCase(name: string, moves: seq<int>, expected: string, description: string)

  /** `TEST_CASES`, in order. */
  const TestCases: seq<TestCase> := [
    TestCase("Basic Diagonal Win", [5, 1, 3, 7, 9], "X", "X wins with main diagonal (positions 1,5,9)"),
    TestCase("Top Row Win", [1, 4, 2, 5, 3], "X", "X wins with top row (positions 1,2,3)"),
    TestCase("Middle Row Win", [4, 1, 5, 2, 6], "X", "X wins with middle row (positions 4,5,6)"),
    TestCase("Bottom Row Win", [7, 1, 8, 2, 9], "X", "X wins with bottom row (positions 7,8,9)"),
    TestCase("Left Column Win", [1, 2, 4, 3, 7], "X", "X wins with left column (positions 1,4,7)"),
    TestCase("Middle Column Win", [2, 1, 5, 3, 8], "X", "X wins with middle column (positions 2,5,8)"),
    TestCase("Right Column Win", [3, 1, 6, 2, 9], "X", "X wins with right column (positions 3,6,9)"),
    TestCase("Anti-Diagonal Win", [3, 1, 5, 2, 7], "X", "X wins with anti-diagonal (positions 3,5,7)"),
    TestCase("O Wins Test", [1, 5, 2, 4, 8, 6], "O", "O wins with middle row (positions 4,5,6)"),
    TestCase("Tie Game", [1, 2, 3, 4, 5, 6, 8, 7, 9], "Tie", "Game ends in a tie with full board"),
    TestCase("Minimum Moves Win", [1, 4, 2, 5, 3], "X", "Fastest possible win - X wins in 5 moves")
  ]

  /** `condition_name.lower() in tc.name.lower()`. */
  predicate NameMatches(query: string, tc: TestCase) {
    In(Lower(query), Lower(tc.name))
  }

  /**
   * The lookup loop of `test_specific_win_condition`: the first case, in
   * table order, whose lower-cased name contains the lower-cased query;
   * nothing when no name does.
   */
  method FindTestCase(query: string) returns (found: Option<TestCase>)
    ensures found.Some? ==>
      exists k :: 0 <= k < |TestCases| && TestCases[k] == found.value && NameMatches(query, TestCases[k])
        && forall j :: 0 <= j < k ==> !NameMatches(query, TestCases[j])
    ensures found.None? ==> forall k :: 0 <= k < |TestCases| ==> !NameMatches(query, TestCases[k])
  {
    found := None;
    var k := 0;
    while k < |TestCases|
      invariant 0 <= k <= |TestCases|
      invariant forall j :: 0 <= j < k ==> !NameMatches(query, TestCases[j])
    {
      if In(Lower(query), Lower(TestCases[k].name)) {
        found := Some(TestCases[k]);
        return;
      }
      k := k + 1;
    }
  }

  // ---------------------------------------------------------------------
  // test_input_validation
  // ---------------------------------------------------------------------

  /** The expected messages, in order, that occur in the lower-cased output. */
  function FoundMessages(lowered: string, expected: seq<string>): (found: seq<string>)
    ensures |found| <= |expected|
    ensures forall m :: m in found ==> m in expected && In(Lower(m), lowered)
    ensures forall i :: 0 <= i < |expected| && In(Lower(expected[i]), lowered) ==> expected[i] in found
  {
    if expected == [] then []
    else
      var rest := FoundMessages(lowered, expected[..|expected| - 1]);
      var m := expected[|expected| - 1];
      assert forall i :: 0 <= i < |expected| - 1 ==> expected[i] == expected[..|expected| - 1][i];
      if In(Lower(m), lowered) then rest + [m] else rest
  }

  /**
   * The message loop of `test_input_validation`: collect the expected
   * messages found in the output; the test passes exactly when one was.
   */
  method TestInputValidation(output: string, shouldContain: seq<string>) returns (found: seq<string>, passed: bool)
    ensures found == FoundMessages(Lower(output), shouldContain)
    ensures passed <==> exists i :: 0 <= i < |shouldContain| && In(Lower(shouldContain[i]), Lower(output))
  {
    var lowered := Lower(output);
    found := [];
    for k := 0 to |shouldContain|
      invariant found == FoundMessages(lowered, shouldContain[..k])
    {
      assert shouldContain[..k + 1][..k] == shouldContain[..k];
      if In(Lower(shouldContain[k]), lowered) {
        found := found + [shouldContain[k]];
      }
    }
    assert shouldContain[..|shouldContain|] == shouldContain;
    passed := found != [];
    if passed {
      assert found[0] in found;
      var i :| 0 <= i < |shouldContain| && shouldContain[i] == found[0];
    }
  }

  /** One entry of `INVALID_INPUT_TESTS`; its input lines are raw strings. */
  datatype ValidationTest = ValidationTest(name: string, inputs: seq<string>, shouldContain: seq<string>, description: string)

  const InvalidInputTests: seq<ValidationTest> := [
    ValidationTest("Letters Instead of Numbers", ["abc", "5"], ["number", "not letters"],
      "Test rejection of alphabetic input"),
    ValidationTest("Out of Range Numbers", ["0", "10", "5"], ["between 1 and 9"],
      "Test rejection of numbers outside 1-9 range"),
    ValidationTest("Position Already Taken", ["5", "5", "1"], ["already taken", "taken by"],
      "Test rejection of moves to occupied positions")
  ]

  // ---------------------------------------------------------------------
  // run_all_tests
  // ---------------------------------------------------------------------

  const GameFiles: seq<string> := ["tictactoe_lists.py", "tictactoe_dict.py"]

  /** How many of the first `k` test cases pass on `file`. */
  function WinsPassed(single: (string, TestCase) -> bool, file: string, k: nat): (n: nat)
    requires k <= |TestCases|
    ensures n <= k
  {
    if k == 0 then 0 else WinsPassed(single, file, k - 1) + (if single(file, TestCases[k - 1]) then 1 else 0)
  }

  /** How many of the first `k` validation tests pass on `file`. */
  function ValidationsPassed(validation: (string, ValidationTest) -> bool, file: string, k: nat): (n: nat)
    requires k <= |InvalidInputTests|
    ensures n <= k
  {
    if k == 0 then 0
    else ValidationsPassed(validation, file, k - 1) + (if validation(file, InvalidInputTests[k - 1]) then 1 else 0)
  }

  /** Tests passed on one game file: its win-condition tests and its validation tests. */
  function FilePassed(single: (string, TestCase) -> bool, validation: (string, ValidationTest) -> bool, file: string): nat {
    WinsPassed(single, file, |TestCases|) + ValidationsPassed(validation, file, |InvalidInputTests|)
  }

  /** The body of the file loop of `run_all_tests`: every win-condition test, then every validation test, on one game file. */
  method TestGameFile(gameFile: string, single: (string, TestCase) -> bool, validation: (string, ValidationTest) -> bool)
    returns (run: nat, passed: nat)
    ensures run == |TestCases| + |InvalidInputTests|
    ensures passed == FilePassed(single, validation, gameFile)
  {
    run, passed := 0, 0;
    for k := 0 to |TestCases|
      invariant run == k
      invariant passed == WinsPassed(single, gameFile, k)
    {
      run := run + 1;
      if single(gameFile, TestCases[k]) {
        passed := passed + 1;
      }
    }
    for k := 0 to |InvalidInputTests|
      invariant run == |TestCases| + k
      invariant passed == WinsPassed(single, gameFile, |TestCases|) + ValidationsPassed(validation, gameFile, k)
    {
      run := run + 1;
      if validation(gameFile, InvalidInputTests[k]) {
        passed := passed + 1;
      }
    }
  }

  /**
   * `run_all_tests`: nothing is counted when a game file is missing;
   * otherwise every test case and every validation test runs on both files,
   * then the comparison test, and the passes are tallied. The outcome of
   * each subprocess run is the parameter `single`, `validation` or
   * `comparison`.
   */
  method RunAllTests(listsExists: bool, dictExists: bool,
                     single: (string, TestCase) -> bool,
                     validation: (string, ValidationTest) -> bool,
                     comparison: bool)
    returns (counts: Option<(nat, nat)>)
    ensures !listsExists || !dictExists ==> counts == None
    ensures listsExists && dictExists ==> counts.Some?
    ensures counts.Some? ==> counts.value.0 == 2 * (|TestCases| + |InvalidInputTests|) + 1 == 29
    ensures counts.Some? ==>
      counts.value.1 == FilePassed(single, validation, GameFiles[0]) + FilePassed(single, validation, GameFiles[1])
        + (if comparison then 1 else 0)
    ensures counts.Some? ==> counts.value.1 <= counts.value.0
  {
    if !listsExists || !dictExists {
      return None;
    }
    var totalTests, passedTests := 0, 0;
    for f := 0 to |GameFiles|
      invariant totalTests == f * (|TestCases| + |InvalidInputTests|)
      invariant passedTests == if f == 0 then 0
        else if f == 1 then FilePassed(single, validation, GameFiles[0])
        else FilePassed(single, validation, GameFiles[0]) + FilePassed(single, validation, GameFiles[1])
    {
      var run, passed := TestGameFile(GameFiles[f], single, validation);
      totalTests := totalTests + run;
      passedTests := passedTests + passed;
    }
    totalTests := totalTests + 1;
    if comparison {
      passedTests := passedTests + 1;
    }
    counts := Some((totalTests, passedTests));
  }
}
