# utils_and_howtos, modelled in Dafny

This project models the small programs of the utils_and_howtos teaching repository that carry real logic, and proves properties of them.

- **Tic-tac-toe, two engines.** The two procedural scripts are modelled: `tictactoe_lists.py`, a board held as a nested 3x3 list, and `tictactoe_dict.py`, a board held as a dictionary keyed 1..9.
  - Each script has its own pure specification in its own representation: the state, one input line (`Play`), the game loop (`Run`) and the lines read (`Consumed`).
  - Each script also has a class whose methods are proved against that specification. The nested list is a 3x3 `array` written in place; the dictionary is a `map` field reassigned on every move.
  - A separate module proves that the two engines agree on every sequence of input lines.
- **Tic-tac-toe tests.** The harness `test_games.py` is modelled: the simulated keyboard input, the winner check, the table of test cases, the lookup and message loops, and the runners' counters. Its move vectors are played through both engines, and whole sessions are modelled down to each process's exit code.
- **`simple_tests.py`.** The comment-ratio check, the required-files check and the per-file test counters are modelled.
- **Pong.** `pong/pong_game.py` becomes classes `Ball`, `Paddle`, `BrickGrid` and `Game` with the source's fields and methods.
- **Chatbot.** The conversation dictionary of `simplechatbot/chatbot.py` is modelled, with the request it sends and the console loop.
- **LangChain examples.** The `MetricsCallback` of `langchain/08_callbacks_monitoring.py` and `format_docs` of `langchain/09_rag_knowledge_base.py` are modelled.
- **Strands agents.** The `letter_counter` tool, the `tool_use_ids` callback and the AgentCore prompt default are modelled.
- **List tutorial.** The indexing, slicing, `append`/`pop`, queue and largest-change examples of `tictactoe/more_examples/01-mylists.py` are modelled.

The tic-tac-toe, test and list-tutorial files exist twice in the repository: `tictactoe_lists.py`, `test_games.py` and `simple_tests.py` at the top level are identical to their copies under `tictactoe/`, and `letter_counter` appears in four agent scripts. Each is modelled once; the table cites whichever copy the row is about.

The tic-tac-toe scripts play on a fixed 3x3 board whose free cells show the digits '1'..'9' and take positions 1..9.

Modules, one per file:

| file | module |
|---|---|
| `wrappers.dfy` | `Wrappers`: `Option` and `Result` |
| `text.dfy` | `Text`: the string built-ins the scripts use (`lower`, `strip`, `in`, `join`, `str`) |
| `tictactoe.dfy` | `TicTacToe`: cell labels, marks, the player switch, the game state shared by both engines |
| `tictactoe_lists.dfy` | `TicTacToeLists`: the nested-list script |
| `tictactoe_dict.dfy` | `TicTacToeDict`: the dictionary script |
| `tictactoe_equivalence.dfy` | `TicTacToeEquivalence`: the two scripts compute the same game |
| `tictactoe_replay.dfy` | `TicTacToeReplay`: games typed as distinct positions |
| `tictactoe_vectors.dfy` | `TicTacToeVectors`: the harness's move lists played through both engines |
| `tictactoe_harness.dfy` | `TicTacToeHarness`: `test_games.py` |
| `tictactoe_sessions.dfy` | `TicTacToeSessions`: whole script runs under the harness and their exit codes |
| `simple_tests.dfy` | `SimpleTests`: `simple_tests.py` |
| `pong.dfy` | `Pong` |
| `chatbot.dfy` | `Chatbot` |
| `metrics.dfy` | `Metrics` |
| `rag.dfy` | `Rag` |
| `strands.dfy` | `Strands` |
| `list_tutorial.dfy` | `ListTutorial` |

## Model

| member | source | states |
|---|---|---|
| Text.LowerChar | strands/quickstart_demo_agent/agent.py:65 | ASCII folding: 'A'..'Z' move up by 32, every other character is kept, and the result is never an upper-case letter |
| Text.Lower | test_games.py:79 | `lower()` keeps the length and folds each character |
| Text.LowerIdempotent | strands/agentcore_agent/agent_example.py:32 | lower-casing twice is lower-casing once |
| Text.In | simple_tests.py:138 | `sub in s` holds iff `sub` occurs in `s` at some offset |
| Text.ContainsFrom | tictactoe/simple_tests.py:138 | the left-to-right scan finds an occurrence at or after `from` iff there is one |
| Text.ContainsTransitive | test_games.py:81 | a text containing `t` contains every substring of `t`, so finding "player x wins" implies finding "x wins" |
| Text.LowerContains | tictactoe/test_games.py:79-81 | a lower-cased text contains the lower-cased form of any substring of the original |
| Text.OccursBetween | langchain/09_rag_knowledge_base.py:41 | in `a + b + c`, `b` occurs right after `a` |
| Text.IsSpace | simplechatbot/chatbot.py:561 | Python's whitespace for `strip()` and `split()`: tab to carriage return, 0x1C..0x1F, space, NEL, no-break space and the Unicode space and line separators |
| Text.StripLeft | simplechatbot/chatbot.py:561 | the leading whitespace dropped: a suffix of the input, starting with a non-space, and everything cut off is whitespace |
| Text.StripRight | simplechatbot/chatbot.py:561 | the trailing whitespace dropped: a prefix, ending with a non-space, and everything cut off is whitespace |
| Text.Strip | simple_tests.py:133 | `strip()` is empty iff the line is all whitespace; otherwise it starts and ends with a non-space |
| Text.Join | langchain/09_rag_knowledge_base.py:41 | `sep.join([])` is empty and `sep.join([p])` is `p` |
| Text.JoinAppend | tictactoe/test_games.py:41 | joining one more part adds the separator and that part at the end |
| Text.DigitChar | test_games.py:41 | the digit character of 0..9 |
| Text.NatToString | test_games.py:41 | `str(n)` for `n >= 0` is non-empty, all digits, and a single digit below 10 |
| Text.IntToString | tictactoe/test_games.py:41 | `str(n)` is non-empty, digits and '-', and a single digit for 0..9 |
| TicTacToe.Label | tictactoe_lists.py:43-47 | a free cell shows the digit of its own position, which is never a mark |
| TicTacToe.Opponent | tictactoe_lists.py:285-291 | the switch always yields a mark, and a different one from a mark |
| TicTacToe.CountMarks | tictactoe_lists.py:65 | the taken cells number at most the cells |
| TicTacToe.CountMarksUpdate | tictactoe_lists.py:203-204 | marking a free cell raises the taken count by exactly one, matching `moves_made + 1` |
| TicTacToe.CountMarksNone | tictactoe_dict.py:41-45 | a board of labels has no taken cell |
| TicTacToe.CountMarksFull | tictactoe_lists.py:278-281 | when every cell counts as taken, every cell holds a mark: the full board the tie check means |
| TicTacToeLists.ToCell | tictactoe_lists.py:174-178 | `row = (position - 1) // 3`, `col = (position - 1) % 3` lands in the 3x3 grid and inverts to `3 * row + col + 1 == position` |
| TicTacToeLists.Cells | tictactoe_lists.py:43-47 | the nine cells in position order, cell p at `board[(p-1)//3][(p-1)%3]` |
| TicTacToeLists.FirstRowFrom | tictactoe_lists.py:234-242 | the row loop with `break` finds the first complete row, and none before it is complete |
| TicTacToeLists.FirstColFrom | tictactoe_lists.py:246-255 | the column loop finds the first complete column, and none before it is complete |
| TicTacToeLists.Validation | tictactoe_lists.py:156-199 | `None` is "not a number"; a number outside 1..9 is out of range; inside, the move is accepted iff its cell holds no mark, and otherwise reported taken by the mark it holds |
| TicTacToeLists.Scan | tictactoe_lists.py:232-275 | the scan reports nothing iff no row, column or diagonal holds three equal marks, and what it reports is a mark |
| TicTacToeLists.ScanSound | tictactoe_lists.py:234-274 | the reported winner is the mark of a complete row, column or diagonal |
| TicTacToeLists.RowsBeforeColumns | tictactoe_lists.py:234-255 | when a row is complete the reported mark is a complete row's, because rows are checked first |
| TicTacToeLists.Place | tictactoe_lists.py:203-204 | placing a mark keeps the board 3x3 |
| TicTacToeLists.Decide | tictactoe_lists.py:230-291 | the win and tie checks leave the board and the move count unchanged |
| TicTacToeLists.AfterMove | tictactoe_lists.py:203-291 | a placed and decided move keeps the board 3x3 |
| TicTacToeLists.Play | tictactoe_lists.py:150-204 | one input line is validated; a rejected line changes nothing; an accepted one places the mark at the converted cell and decides the outcome |
| TicTacToeLists.Run | tictactoe_lists.py:136 | the loop never undoes a move and does nothing once the game is over |
| TicTacToeLists.ReadLine | tictactoe_lists.py:154 | while the game runs, each line is read and played in turn |
| TicTacToeLists.Consumed | tictactoe_lists.py:136-154 | the loop reads at most the lines given, none once the game is over, and at least one while it runs |
| TicTacToeLists.Typed | test_games.py:31-41 | typed positions become one parsed line each, in order |
| TicTacToeLists.InitialInv | tictactoe_lists.py:43-67 | the set-up section satisfies the game invariant: every cell a label, X to move, no move, no winner |
| TicTacToeLists.FreeIffLabel | tictactoe_lists.py:185-191 | a position is accepted iff its cell still shows its own digit |
| TicTacToeLists.NewLineIsMover | tictactoe_lists.py:234-274 | on a board with no complete line, a line completed by one new mark is that mark's |
| TicTacToeLists.PlayPreservesInv | tictactoe_lists.py:150-291 | every accepted or rejected line keeps the invariant: moves equal taken cells, marks alternate, the winner owns a line, a tie is a full board with no line |
| TicTacToeLists.RunPreservesInv | tictactoe_lists.py:136-291 | the invariant holds after any sequence of input lines |
| TicTacToeLists.GameIsBounded | tictactoe_lists.py:136-291 | at most nine moves, each a taken cell; nine moves end the game; a declared winner owns a complete line; a tie is nine moves with no line |
| TicTacToeLists.OverIsFinal | tictactoe_lists.py:136 | once the game is over, further lines change nothing |
| TicTacToeLists.MoveOutcome | tictactoe_lists.py:230-291 | after an accepted move the winner is the mover; a tie iff nine moves and no line; the turn passes iff the game goes on |
| TicTacToeLists.ListsGame.Grid | tictactoe_lists.py:43-47 | the 3x3 array read row by row, cell for cell |
| TicTacToeLists.ListsGame.constructor | tictactoe_lists.py:43-65 | the set-up section produces the initial state |
| TicTacToeLists.ListsGame.ValidateInput | tictactoe_lists.py:161-195 | the range and occupancy checks agree with `Validation`: accepted iff the number is 1..9 and the cell holds no mark |
| TicTacToeLists.ListsGame.DecideOutcome | tictactoe_lists.py:230-291 | the scan, the tie check and the switch compute `Decide` of the state in place |
| TicTacToeLists.ListsGame.MakeMove | tictactoe_lists.py:203-204 | writing the mark into the array and settling the outcome is `AfterMove` |
| TicTacToeLists.ListsGame.ReadMove | tictactoe_lists.py:150-199 | the inner loop reads lines until one is accepted or input ends; every rejected line is one `Play` that changes nothing |
| TicTacToeLists.ListsGame.PlayGame | tictactoe_lists.py:136-291 | the two nested loops reach `Run` of the old state and read exactly `Consumed` lines |
| TicTacToeDict.Validation | tictactoe_dict.py:152-187 | `None` is "not a number"; a key outside 1..9 is out of range; inside, the move is accepted iff `board[position]` holds no mark, and otherwise reported taken by that mark |
| TicTacToeDict.Scan | tictactoe_dict.py:221-277 | the chain reports nothing only when no line is complete, and what it reports is a mark |
| TicTacToeDict.ScanSound | tictactoe_dict.py:222-276 | the `elif` chain reports a winner iff one of the eight lines holds three equal marks, and the winner is the mark of the first complete line in the chain's order |
| TicTacToeDict.Place | tictactoe_dict.py:192-193 | writing key `position` keeps exactly the keys 1..9 |
| TicTacToeDict.Decide | tictactoe_dict.py:281-293 | the win and tie checks leave the board and the move count unchanged |
| TicTacToeDict.AfterMove | tictactoe_dict.py:192-293 | a placed and decided move keeps the keys 1..9 |
| TicTacToeDict.Play | tictactoe_dict.py:142-193 | one line is validated; a rejected line changes nothing; an accepted one places the mark and decides the outcome |
| TicTacToeDict.Run | tictactoe_dict.py:127 | the loop never undoes a move and does nothing once the game is over |
| TicTacToeDict.ReadLine | tictactoe_dict.py:147 | while the game runs, each line is read and played in turn |
| TicTacToeDict.Consumed | tictactoe_dict.py:127-147 | the loop reads at most the lines given, none once over, at least one while running |
| TicTacToeDict.Cells | tictactoe_dict.py:41-45 | the nine values in key order |
| TicTacToeDict.DictGame.constructor | tictactoe_dict.py:41-67 | the set-up section produces the initial state |
| TicTacToeDict.DictGame.ValidateInput | tictactoe_dict.py:155-187 | accepted iff the number is 1..9 and `board[position]` is not a mark |
| TicTacToeDict.DictGame.DecideOutcome | tictactoe_dict.py:222-293 | the chain, the tie check and the switch compute `Decide` |
| TicTacToeDict.DictGame.MakeMove | tictactoe_dict.py:192-193 | the assignment and the outcome are `AfterMove` |
| TicTacToeDict.DictGame.ReadMove | tictactoe_dict.py:142-190 | the inner loop reads lines until one is accepted or input ends, consistent with `Play` on every line |
| TicTacToeDict.DictGame.PlayGame | tictactoe_dict.py:127-293 | the two nested loops reach `Run` of the old state and read exactly `Consumed` lines |
| TicTacToeEquivalence.ToDict | tictactoe_dict.py:41-45 | the dictionary a nested list stands for: keys 1..9, value p is the list's cell p |
| TicTacToeEquivalence.ToDictState | tictactoe_dict.py:51-67 | the same globals with the board translated |
| TicTacToeEquivalence.InitialCorresponds | tictactoe_dict.py:41-67 | both scripts start from corresponding states |
| TicTacToeEquivalence.ValidationCorresponds | tictactoe_dict.py:160-179 | both scripts accept and reject exactly the same lines |
| TicTacToeEquivalence.ScanCorresponds | tictactoe_dict.py:222-276 | the list scan and the dictionary chain report the same winner |
| TicTacToeEquivalence.PlaceCorresponds | tictactoe_dict.py:192-193 | writing `board[row][col]` is writing `board[position]` |
| TicTacToeEquivalence.PlayCorresponds | tictactoe_dict.py:142-193 | one input line has the same verdict and corresponding results in both scripts |
| TicTacToeEquivalence.RunCorresponds | tictactoe_dict.py:127-293 | any sequence of lines leads both scripts to corresponding states |
| TicTacToeEquivalence.EnginesAgree | test_games.py:312-347 | from the start, both scripts end in the same state on every input, which is what the comparison test asks |
| TicTacToeEquivalence.DictGameIsBounded | tictactoe_dict.py:127-293 | at most nine moves, nine moves end the game, a winner owns a line, a tie has none, in the dictionary script too |
| TicTacToeReplay.Mark | tictactoe_lists.py:52 | X moves first and the marks alternate |
| TicTacToeReplay.MarkAlternates | tictactoe/tictactoe_lists.py:285-291 | the switch after move k gives the mark of move k + 1 |
| TicTacToeReplay.Marked | tictactoe/tictactoe_lists.py:203-204 | the board after moves `ms` has nine cells |
| TicTacToeReplay.MarkedCells | tictactoe/tictactoe_lists.py:203-204 | an untouched cell shows its label, and the i-th move's cell shows the i-th mark |
| TicTacToeReplay.MarkCounts | tictactoe/tictactoe_lists.py:285-291 | after k moves X holds ceil(k/2) cells and O floor(k/2) |
| TicTacToeReplay.CompleteLineCounts | tictactoe/tictactoe_lists.py:234-274 | a complete line gives its mark at least three cells |
| TicTacToeReplay.EarliestWin | test_games.py:196-201 | no line is complete with four moves or fewer, so five is the fewest that win |
| TicTacToeReplay.Rows | tictactoe/tictactoe_lists.py:43-47 | nine cells as three rows, and back |
| TicTacToeReplay.SameCells | tictactoe/tictactoe_lists.py:43-47 | two 3x3 boards with the same cells are equal |
| TicTacToeReplay.Board | tictactoe/tictactoe_lists.py:203-204 | the nested list whose cells are `Marked(ms)` |
| TicTacToeReplay.RunAppend | tictactoe/tictactoe_lists.py:136 | one more line is one more `Play`, unless the game is over |
| TicTacToeReplay.NoLineMonotone | tictactoe/tictactoe_lists.py:234-274 | a board whose marks all appear on a later board has no line when the later one has none |
| TicTacToeReplay.NoLineBefore | tictactoe/tictactoe_lists.py:234-274 | if the board after all the moves has no line, no earlier board had one |
| TicTacToeReplay.QuietRun | tictactoe/tictactoe_lists.py:136-291 | while no line is complete, distinct positions are all accepted, marked in turn, and counted |
| TicTacToeReplay.LastMove | tictactoe/tictactoe_lists.py:203-291 | the move after a quiet stretch is placed and then decided |
| TicTacToeReplay.DecidingMove | tictactoe/tictactoe_lists.py:230-291 | a move completing a line wins for its mover; a ninth move completing none is a tie; any other move passes the turn |
| TicTacToeReplay.WinningMove | tictactoe/tictactoe_lists.py:234-274 | a game whose last move completes the first line is won by that move's mover |
| TicTacToeReplay.FullBoardTie | tictactoe/tictactoe_lists.py:278-281 | a ninth move that completes no line ends the game as "Tie" |
| TicTacToeVectors.Outcome | tictactoe_dict.py:127-293 | the nested-list final state of a move list corresponds to the dictionary script's |
| TicTacToeVectors.LastMoveWins | test_games.py:125-202 | a vector whose last move completes the first line is declared for its mover by both engines |
| TicTacToeVectors.NewLineWins | tictactoe/test_games.py:125-202 | a move completing a line after a quiet stretch wins in both engines |
| TicTacToeVectors.FifthMoveWins | test_games.py:196-201 | five distinct positions whose board shows a line are an X win |
| TicTacToeVectors.TopRowWin | test_games.py:133-138 | "Top Row Win" (and "Minimum Moves Win") ends with X announced by both engines |
| TicTacToeVectors.MiddleRowWin | test_games.py:140-145 | "Middle Row Win" is an X win in both engines |
| TicTacToeVectors.BottomRowWin | test_games.py:147-152 | "Bottom Row Win" is an X win in both engines |
| TicTacToeVectors.LeftColumnWin | test_games.py:154-159 | "Left Column Win" is an X win in both engines |
| TicTacToeVectors.MiddleColumnWin | test_games.py:161-166 | "Middle Column Win" is an X win in both engines |
| TicTacToeVectors.RightColumnWin | test_games.py:168-173 | "Right Column Win" is an X win in both engines |
| TicTacToeVectors.AntiDiagonalWin | test_games.py:175-180 | "Anti-Diagonal Win" is an X win in both engines |
| TicTacToeVectors.OWinsMiddleRow | test_games.py:182-187 | "O Wins Test" is an O win on the sixth move in both engines |
| TicTacToeVectors.MarkedIs | tictactoe/test_games.py:126-131 | a board is known cell by cell from where each move went |
| TicTacToeVectors.DiagonalVectorAsWritten | test_games.py:126-131 | the "Basic Diagonal Win" moves leave both engines running, waiting for O, instead of an X win |
| TicTacToeVectors.DiagonalVectorCorrected | tictactoe/test_games.py:126-131 | moves 5, 3, 1, 7, 9 give X the diagonal on the fifth move in both engines |
| TicTacToeVectors.TieVectorAsWritten | test_games.py:189-194 | the "Tie Game" moves end in an X win, not a tie, in both engines |
| TicTacToeVectors.TieVectorBoards | tictactoe/test_games.py:189-194 | the first eight "Tie Game" moves complete no line and the ninth completes the main diagonal |
| TicTacToeVectors.TieVectorCorrected | tictactoe/test_games.py:189-194 | moves 1, 2, 3, 4, 5, 7, 6, 9, 8 end in a tie in both engines |
| TicTacToeHarness.Decimals | test_games.py:41 | one decimal string per move, in order |
| TicTacToeHarness.SimulateGameInput | tictactoe/test_games.py:31-41 | the simulated input always ends with a newline |
| TicTacToeHarness.SimulateAppend | test_games.py:41 | one more move adds its number and a newline at the end |
| TicTacToeHarness.SingleDigitLayout | tictactoe/test_games.py:41 | for moves 0..9 the input is digit, newline, digit, newline, ... |
| TicTacToeHarness.SingleDigitInput | test_games.py:31-41 | for moves 0..9 the input is twice as long as the list, with newlines exactly at the odd offsets |
| TicTacToeHarness.CheckWinReduces | test_games.py:68-88 | the X check is "x wins" containment, the O check "o wins", the Tie check "tie" or "draw", and any other expectation fails |
| TicTacToeHarness.AnnouncementMentions | tictactoe_lists.py:305-310 | a finished game's announcement contains the words the winner check looks for |
| TicTacToeHarness.AnnouncementPasses | tictactoe_dict.py:310-315 | output that includes the announcement passes the check for that result |
| TicTacToeHarness.LowerWords | tictactoe/test_games.py:79-86 | the announcement's words lower-case to "x wins", "o wins" and "tie" |
| TicTacToeHarness.FindTestCase | test_games.py:428-432 | the lookup returns the first case, in table order, whose lower-cased name contains the query, and nothing when no name does |
| TicTacToeHarness.FoundMessages | tictactoe/test_games.py:296-305 | the found messages are exactly the expected ones that occur in the lower-cased output |
| TicTacToeHarness.TestInputValidation | test_games.py:296-310 | the loop collects `FoundMessages`, and the test passes iff some expected message occurs |
| TicTacToeHarness.WinsPassed | tictactoe/test_games.py:381-384 | at most one pass per win-condition test |
| TicTacToeHarness.ValidationsPassed | tictactoe/test_games.py:388-391 | at most one pass per validation test |
| TicTacToeHarness.TestGameFile | tictactoe/test_games.py:374-391 | one game file runs every win-condition and validation test, and its passes are `FilePassed` |
| TicTacToeHarness.RunAllTests | test_games.py:349-410 | nothing is counted when a game file is missing; otherwise 29 tests run, the passes are the per-file tallies plus the comparison, and passes never exceed tests run |
| TicTacToeSessions.MovesBound | tictactoe_lists.py:150-204 | each line read adds at most one move |
| TicTacToeSessions.ConsumedAll | tictactoe/tictactoe_lists.py:136-154 | while the game runs before the last line, every line is read |
| TicTacToeSessions.ConsumedStops | tictactoe_lists.py:136 | once the game is over, a further line is left unread |
| TicTacToeSessions.ExitCode | test_games.py:256-260 | return code 0 iff the script reached its last statement |
| TicTacToeSessions.ConsumedUnlessEarly | tictactoe/tictactoe_lists.py:136-154 | when the game ends on the last line or not at all, the loop reads every line |
| TicTacToeSessions.EndOfInputUnlessEarly | tictactoe_lists.py:334 | so the play-again `input()` meets the end of the input |
| TicTacToeSessions.CaseAsWritten | test_games.py:125-202 | "Basic Diagonal Win" leaves the game waiting for O, "Tie Game" is an X win, and every other case ends on its last move with the expected result |
| TicTacToeSessions.ListsWinTestCrashes | test_games.py:234-272 | every win-condition test fails on the nested-list script, whatever it prints |
| TicTacToeSessions.ComparisonFails | test_games.py:312-347 | the comparison test fails whatever either script prints |
| TicTacToeSessions.SessionLines | tictactoe/test_games.py:41 | the corrected input is the typed moves followed by one non-number line |
| TicTacToeSessions.SessionCompletes | tictactoe_lists.py:334-340 | with an answer line after the moves, both scripts reach their last statement for every game that ends |
| TicTacToeSessions.CorrectedCaseDeclares | tictactoe/test_games.py:125-202 | every corrected vector ends with its expected result in both engines |
| TicTacToeSessions.CorrectedTestPasses | tictactoe/test_games.py:234-272 | under the corrected input and vectors, each test passes in both scripts on output that includes the announcement |
| TicTacToeSessions.CorrectedComparisonPasses | tictactoe/test_games.py:312-347 | the comparison test on the corrected diagonal and input passes |
| SimpleTests.ClassifyCases | simple_tests.py:132-141 | a line is blank iff it strips to nothing; a '#' line is a comment; a line is code iff it is neither blank nor starts with '#' nor holds a triple quote |
| SimpleTests.CountKind | tictactoe/simple_tests.py:132-141 | a kind counts at most the lines |
| SimpleTests.KindsPartition | simple_tests.py:132-141 | every line is counted exactly once: blank + comment + code == the number of lines |
| SimpleTests.CheckEducationalComments | simple_tests.py:116-163 | a missing file fails; otherwise the counting loop passes iff there is code and comments are at least half of it |
| SimpleTests.NoCodeFails | simple_tests.py:143-159 | a file with no code line fails, however many comments it has |
| SimpleTests.CommentKeepsPass | tictactoe/simple_tests.py:143-159 | adding a comment line never turns a pass into a fail |
| SimpleTests.Select | simple_tests.py:184-189 | the selection is a subsequence no longer than the paths |
| SimpleTests.SelectSound | simple_tests.py:184-189 | every present path exists and every missing path does not |
| SimpleTests.SelectPartition | tictactoe/simple_tests.py:184-189 | present and missing split the required paths: lengths add up and the multisets combine to the paths |
| SimpleTests.NoneMissing | simple_tests.py:196-201 | nothing is missing iff every required path exists |
| SimpleTests.TestFileCompleteness | simple_tests.py:165-201 | the loop returns the present and the missing files in order, and passes iff none is missing |
| SimpleTests.Existing | tictactoe/simple_tests.py:222-223 | at most the number of paths exist |
| SimpleTests.FileScore | simple_tests.py:222-245 | one existing file passes at most four tests |
| SimpleTests.Score | tictactoe/simple_tests.py:222-245 | the passes are at most four per existing file |
| SimpleTests.FullScore | simple_tests.py:222-245 | the score is four per existing file iff each one passes all four tests |
| SimpleTests.TestSyntax | simple_tests.py:18-41 | fails on a missing file, otherwise passes iff the file parses |
| SimpleTests.TestImports | simple_tests.py:43-62 | fails on a missing file, otherwise passes iff the file compiles |
| SimpleTests.AnalyzeCodeStructure | simple_tests.py:64-114 | fails on a missing file, otherwise passes iff the file parses |
| SimpleTests.TestPythonFile | tictactoe/simple_tests.py:222-245 | an existing file runs four tests and passes `FileScore` of them |
| SimpleTests.RunAllTests | simple_tests.py:203-264 | the completeness test plus four tests per existing Python file are run; the passes are completeness plus `Score`, never more than run |
| Pong.BounceTurnsAway | pong/pong_game.py:38-61 | a ball moving into the left, right or top wall leaves the wall check moving away from it |
| Pong.WallBounce | pong/pong_game.py:46-61 | after the wall check the ball is below the top edge and, on a wide enough screen, between the side walls; the vertical speed flips iff the top was hit; a ball clear of the side walls keeps x and dx |
| Pong.OneSideWall | pong/pong_game.py:46-56 | on a screen wider than the ball, dx flips exactly when a side wall is touched |
| Pong.SteerStaysOnScreen | pong/pong_game.py:97-107 | a paddle that starts inside the screen stays inside it whatever keys are pressed |
| Pong.StepsMoveBySpeed | pong/pong_game.py:97-107 | a move left or right shifts by exactly the speed iff the edge guard holds, and otherwise leaves x alone |
| Pong.FirstInRow | pong/pong_game.py:196-203 | the first brick hit in a row, with none hit before it |
| Pong.FirstHitFrom | pong/pong_game.py:196-203 | the row-major scan finds the first brick hit, or reports that none is |
| Pong.Destroy | pong/pong_game.py:161-165 | destroying sets the flag and changes nothing else |
| Pong.Brick.HitAt | pong/pong_game.py:145-159 | a destroyed brick is never hit; a live one is hit iff the ball's bounding box meets it |
| Pong.RowHitsIndex | pong/pong_game.py:145-159 | the hit flag of brick c is that brick's collision check |
| Pong.HitsIndex | pong/pong_game.py:196-203 | the hit flags of row r are that row's collision checks |
| Pong.DestroyAtOnly | pong/pong_game.py:270-273 | destroying the brick hit changes that brick's flag and no other brick |
| Pong.RowDestroyed | pong/pong_game.py:205-211 | a row counts at most its bricks as destroyed |
| Pong.RowDestroyedSet | pong/pong_game.py:161-165 | destroying a live brick adds one to its row's count |
| Pong.DestroyedSet | pong/pong_game.py:270-273 | destroying a live brick adds one to the grid's count |
| Pong.RowDestroyedFull | pong/pong_game.py:205-211 | a row is cleared iff its count equals its length |
| Pong.DestroyedFull | pong/pong_game.py:205-211 | the count never exceeds the bricks, and equals them iff every brick is destroyed |
| Pong.DestroyedNone | pong/pong_game.py:183-193 | a grid with no destroyed brick counts zero |
| Pong.RowDestroyedNone | pong/pong_game.py:183-193 | a row with no destroyed brick counts zero |
| Pong.FirstHitScores | pong/pong_game.py:270-273 | the first brick hit is live, so destroying it adds exactly one to the count |
| Pong.FirstHitIs | pong/pong_game.py:196-203 | a hit brick with none hit before it in row-major order is the one the scan returns |
| Pong.Layout | pong/pong_game.py:183-193 | `rows` rows of `cols` live bricks, brick (r, c) with its corner at (start_x + c * w, start_y + r * h) and its row's colour |
| Pong.LayoutNoneDestroyed | pong/pong_game.py:183-193 | a freshly laid-out grid counts no destroyed brick |
| Pong.NewScene | pong/pong_game.py:285-298 | the state `restart_game` sets up: the served ball, the paddle, the 5 by 10 grid, running, not over, score 0 |
| Pong.KeyPressed | pong/pong_game.py:245-255 | the effect of one key on the game state |
| Pong.Update | pong/pong_game.py:257-283 | the effect of `update_game` on the game state |
| Pong.Tick | pong/pong_game.py:323-326 | one pass of the main loop: the key, then `update_game` only if the game is not over |
| Pong.RunFrames | pong/pong_game.py:321-326 | the main loop: one pass per frame while running |
| Pong.RunKeepsScore | pong/pong_game.py:270-273 | in every state the loop reaches, the score is ten per destroyed brick |
| Pong.OverFreezes | pong/pong_game.py:323-326 | once the game is over, and until an "r" frame, the ball, the bricks and the score stay as they are and the game stays over |
| Pong.QuitStops | pong/pong_game.py:249-255 | after a "q" frame the loop is stopped |
| Pong.Ball.constructor | pong/pong_game.py:18-30 | the ball starts at its centre with dx of 3 or -3 and dy 3 |
| Pong.Ball.Move | pong/pong_game.py:32-36 | the position advances by the velocity |
| Pong.Ball.BounceHorizontal | pong/pong_game.py:38-40 | dx is negated |
| Pong.Ball.BounceVertical | pong/pong_game.py:42-44 | dy is negated |
| Pong.Ball.CheckWallCollision | pong/pong_game.py:46-61 | the ball's new state is `WallBounce` of the old |
| Pong.Ball.IsBelowScreen | pong/pong_game.py:63-65 | the ball is below the screen iff its y exceeds the height |
| Pong.Paddle.constructor | pong/pong_game.py:80-95 | position and size as given, speed 15 |
| Pong.Paddle.MoveLeft | pong/pong_game.py:97-101 | x becomes `LeftStep` of the old x |
| Pong.Paddle.MoveRight | pong/pong_game.py:103-107 | x becomes `RightStep` of the old x |
| Pong.Paddle.HitsBall | pong/pong_game.py:109-120 | the ball's centre lies within the paddle's width and its bounding box meets the paddle's height |
| Pong.BrickGrid.constructor | pong/pong_game.py:176-193 | the nested loops lay out exactly `Layout`: rows by cols live bricks at their grid corners, coloured by row |
| Pong.BrickGrid.CheckBallCollision | pong/pong_game.py:196-203 | the first brick hit in row-major order is destroyed and reported; no hit changes nothing |
| Pong.BrickGrid.AllDestroyed | pong/pong_game.py:205-211 | true iff every brick is destroyed |
| Pong.Game.constructor | pong/pong_game.py:218-243 | a fresh game: ball at the centre, paddle at the bottom, 5 by 10 live bricks, score 0, running |
| Pong.Game.Restart | pong/pong_game.py:285-308 | new ball, paddle and grid; score 0; running, not over; the state is `NewScene` |
| Pong.Game.HandleInput | pong/pong_game.py:245-255 | Left and Right steer the paddle, "r" restarts, "q" stops the loop, any other key changes nothing; the state is `KeyPressed` of the old |
| Pong.Game.MoveBall | pong/pong_game.py:257-267 | the ball moves, bounces off the walls, and bounces off the paddle iff they overlap |
| Pong.Game.BreakBrick | pong/pong_game.py:270-273 | the first brick hit is destroyed, dy flips and the score rises by 10; the score stays ten per destroyed brick |
| Pong.Game.CheckOver | pong/pong_game.py:276-283 | the game is over when the ball is below the screen or no brick is left |
| Pong.Game.UpdateGame | pong/pong_game.py:257-283 | one frame composes the three steps and keeps the score invariant; the state is `Update` of the old |
| Pong.Game.Pass | pong/pong_game.py:323-326 | one loop pass: the state is `Tick` of the old, and the loop keeps running iff the key was not "q" |
| Pong.Game.Run | pong/pong_game.py:321-326 | the final state is `RunFrames` of the old state over the frames, so `update_game` runs only while the game is not over; the loop keeps running iff no frame's key was "q" |
| Chatbot.ApiMessages | simplechatbot/chatbot.py:302-307 | one API message per conversation message |
| Chatbot.ApiMessagesIndex | simplechatbot/chatbot.py:302-307 | the translation keeps the order and carries each role and content over as one text block |
| Chatbot.ApiMessagesAppend | simplechatbot/chatbot.py:281-324 | translation distributes over concatenation, so each request re-sends the whole earlier history first |
| Chatbot.ExtractResponseContent | simplechatbot/chatbot.py:395-421 | the first block's text, or an error exactly when the reply has no content block |
| Chatbot.ExtractInvertsWrapping | simplechatbot/chatbot.py:412-414 | reading back a wrapped message gives its own content |
| Chatbot.Turn | simplechatbot/chatbot.py:455-517 | a turn appends the user message, then the assistant reply iff one could be read |
| Chatbot.Classify | simplechatbot/chatbot.py:561-574 | a message line is the stripped, non-empty input |
| Chatbot.Next | simplechatbot/chatbot.py:559-595 | one console line only extends the history |
| Chatbot.NextAnswered | simplechatbot/chatbot.py:578 | a readable reply to a message adds the user and assistant messages and goes on |
| Chatbot.ConversedExtends | simplechatbot/chatbot.py:559-595 | the loop keeps the starting history as a prefix |
| Chatbot.FarewellEndsLoop | simplechatbot/chatbot.py:567-569 | lines after a farewell are never seen |
| Chatbot.AlternatesPair | simplechatbot/chatbot.py:485-503 | a user and an assistant message keep an alternating history alternating |
| Chatbot.ConversedAlternates | simplechatbot/chatbot.py:559-595 | when every reply can be read, the history alternates user, assistant from the start |
| Chatbot.Conversation.constructor | simplechatbot/chatbot.py:22-56 | no messages, count 0, the Nova Lite model, the given id and time |
| Chatbot.Conversation.AddMessage | simplechatbot/chatbot.py:59-106 | one message appended at the end, and the count is the number of messages |
| Chatbot.Conversation.PrepareRequest | simplechatbot/chatbot.py:281-324 | the whole history in order, `maxTokens` 1000 |
| Chatbot.Conversation.ProcessTurn | simplechatbot/chatbot.py:455-517 | the request holds the history plus the new user message; the conversation becomes `Turn` of the old one |
| Chatbot.Chat | simplechatbot/chatbot.py:559-595 | the conversation after the console loop is `Conversed` of the old one |
| Metrics.WordLength | langchain/08_callbacks_monitoring.py:36 | the leading run of non-whitespace, ended by whitespace or the end of the text |
| Metrics.Split | langchain/08_callbacks_monitoring.py:36 | every piece of `split()` is non-empty and holds no whitespace |
| Metrics.SplitCountsWords | langchain/08_callbacks_monitoring.py:36 | `split()` cuts no word in two: it returns one piece per word start, a non-whitespace character at the start or after whitespace |
| Metrics.EstimatedTokens | langchain/08_callbacks_monitoring.py:35-36 | the token estimate is the number of word starts of the response |
| Metrics.SplitKeepsText | langchain/08_callbacks_monitoring.py:36 | the pieces hold every non-whitespace character and nothing else, in order |
| Metrics.PrintableWord | langchain/08_callbacks_monitoring.py:36 | a leading word passes through unchanged |
| Metrics.MetricsCallback.constructor | langchain/08_callbacks_monitoring.py:15-22 | no calls, no tokens, no start time |
| Metrics.MetricsCallback.OnLlmStart | langchain/08_callbacks_monitoring.py:24-27 | only the start time changes |
| Metrics.MetricsCallback.OnLlmEnd | langchain/08_callbacks_monitoring.py:29-49 | one more call, its word count added to the tokens and recorded, and the totals stay the sums of the records |
| Metrics.MetricsCallback.OnLlmError | langchain/08_callbacks_monitoring.py:51-53 | nothing is counted on an error |
| Metrics.MetricsCallback.GetSummary | langchain/08_callbacks_monitoring.py:55-69 | "no calls yet" iff no call finished; otherwise the totals |
| Rag.Doc | langchain/09_rag_knowledge_base.py:15-34 | a document with its text and its service and category metadata |
| Rag.Entries | langchain/09_rag_knowledge_base.py:41 | one entry per document, in order |
| Rag.FormatDocs | langchain/09_rag_knowledge_base.py:39-41 | a result iff every document has a service; empty for no documents; a single document is its entry |
| Rag.JoinLength | langchain/09_rag_knowledge_base.py:41 | the joined text is as long as the parts plus the separators between them |
| Rag.StartPrefix | langchain/09_rag_knowledge_base.py:41 | a part's position depends only on the parts before it |
| Rag.JoinOccurs | langchain/09_rag_knowledge_base.py:41 | each part occurs in the joined text at its own position |
| Rag.FormatDocsInOrder | langchain/09_rag_knowledge_base.py:39-41 | each document's entry occurs in the context, in input order |
| Rag.FormatDocsAppend | langchain/09_rag_knowledge_base.py:39-41 | one more document adds a blank line and its entry at the end |
| Rag.SampleKnowledgeBaseShape | langchain/09_rag_knowledge_base.py:11-37 | five documents, each with service and category, the first about Lambda |
| Rag.SampleKnowledgeBaseFormats | langchain/test_all_examples.py:153-156 | the sample knowledge base formats without error, starting with the Lambda entry |
| Text.CountChar | strands/simple_agent/04agent.py:28 | `count` is at most the length |
| Strands.CountCharIsMultiplicity | strands/simple_agent/05agent.py:30 | the count is the letter's multiplicity in the text |
| Strands.CountCharAppend | strands/simple_agent/04agent.py:28 | counting distributes over concatenation |
| Strands.LetterCounter | strands/quickstart_demo_agent/agent.py:47-65 | 0 for a non-string argument; a ValueError iff the letter is not one character; otherwise a count no larger than the word |
| Strands.LetterCounterIgnoresCase | strands/agentcore_agent/agent_example.py:14-32 | the count is the same for the lower-cased arguments |
| Strands.LetterCounterCounts | strands/simple_agent/05agent.py:12-30 | the count is the multiplicity of the lower-cased letter in the lower-cased word |
| Strands.StrawberryRs | strands/quickstart_demo_agent/agent.py:105 | "strawberry" holds three 'r' |
| Strands.StrawberryLower | strands/quickstart_demo_agent/agent.py:105 | "strawberry" is lower-case already |
| Strands.StrawberryHasThreeRs | strands/quickstart_demo_agent/agent.py:105 | the tool answers 3 for 'r' or 'R' in "strawberry" |
| Strands.Record | strands/quickstart_demo_agent/agent.py:78-87 | a KeyError iff a tool use has no id; otherwise the list grows by at most one id at the end, keeps every earlier id, stays free of duplicates and holds exactly the old ids plus the new one |
| Strands.ToolUseLog.constructor | strands/quickstart_demo_agent/agent.py:77 | the list starts empty |
| Strands.ToolUseLog.CallbackHandler | strands/quickstart_demo_agent/agent.py:78-87 | the list becomes `Record` of the old one, unchanged on a KeyError |
| Strands.UserMessage | strands/agentcore_agent/agent_example.py:51 | the payload's prompt, or the default greeting when it has none |
| ListTutorial.Get | tictactoe/more_examples/01-mylists.py:42-67 | `s[i]` succeeds iff `-len(s) <= i < len(s)`, and gives the item at the normalised index |
| ListTutorial.NegativeIndex | tictactoe/more_examples/01-mylists.py:82-99 | `s[-k]` is `s[len(s) - k]`, and `s[-1]` is the last item |
| ListTutorial.Bound | tictactoe/more_examples/01-mylists.py:105-109 | a slice bound is clipped to the list |
| ListTutorial.Slice | tictactoe/more_examples/01-mylists.py:103-146 | a slice is never longer than the list |
| ListTutorial.SliceContents | tictactoe/more_examples/01-mylists.py:116-126 | `s[a:b]` holds `b - a` items: from `a` up to, not including, `b` |
| ListTutorial.SliceDefaults | tictactoe/more_examples/01-mylists.py:129-140 | an omitted start is 0 and an omitted stop is the length |
| ListTutorial.SliceLast | tictactoe/more_examples/01-mylists.py:143-146 | `s[-k:]` is the last k items |
| ListTutorial.SliceSplit | tictactoe/more_examples/01-mylists.py:105-109 | `s[:k] + s[k:] == s` for every k |
| ListTutorial.Without | tictactoe/more_examples/01-mylists.py:194-196 | removing one item leaves one fewer |
| ListTutorial.WithoutShifts | tictactoe/more_examples/01-mylists.py:219-224 | items before the removed one stay, later ones move one place left, and reinserting it restores the list |
| ListTutorial.PopResult | tictactoe/more_examples/01-mylists.py:191-233 | `pop(i)` fails on an empty list or an index out of range; otherwise returns the indexed item and the list without it |
| ListTutorial.AppendThenPop | tictactoe/more_examples/01-mylists.py:169-208 | `pop()` after `append(x)` returns x and the original list |
| ListTutorial.PopLastItem | tictactoe/more_examples/01-mylists.py:203-208 | `pop()` returns the last item and keeps the others in order |
| ListTutorial.PopFirstItem | tictactoe/more_examples/01-mylists.py:211-216 | `pop(0)` returns the first item and keeps the rest in order |
| ListTutorial.PyList.constructor | tictactoe/more_examples/01-mylists.py:13-25 | the list holds the given items |
| ListTutorial.PyList.Append | tictactoe/more_examples/01-mylists.py:157-189 | one item added at the end |
| ListTutorial.PyList.Pop | tictactoe/more_examples/01-mylists.py:191-233 | the result and the new list are `PopResult` of the old list; an error changes nothing |
| ListTutorial.Drain | tictactoe/more_examples/01-mylists.py:344-347 | the items come out in the order they went in, and the queue ends empty |
| ListTutorial.QueueExample | tictactoe/more_examples/01-mylists.py:336-348 | the three tasks are processed in the order they were added |
| ListTutorial.BiggestChange | tictactoe/more_examples/01-mylists.py:353-367 | the reported change bounds every adjacent change and is attained first at day1, with day2 the next day; 0 and days 0 when no change is positive |
| ListTutorial.TemperatureIndexing | tictactoe/more_examples/01-mylists.py:94-126 | `[-8]` and `[0]` are 72, `[-1]` and `[7]` are 71, `[2:5]` is 75, 80, 77 |
| ListTutorial.AppendAndPopExamples | tictactoe/more_examples/01-mylists.py:169-232 | "butter" appended then popped restores the cart; `pop(0)` twice yields the first two tasks; `pop(2)` removes "viewer" |
| ListTutorial.AppendTemperatures | tictactoe/more_examples/01-mylists.py:176-181 | the two readings end up at the end, after the eight original ones |
| ListTutorial.ScanTemperatures | tictactoe/more_examples/01-mylists.py:351-367 | on the ten temperatures the largest change is 7, between day 2 and day 3 |

## Left out

- **Console I/O.** Keyboard input reaches the tic-tac-toe model as lines already parsed by `int()` (`None` when the parse fails), so Python's `int()` parsing rules are not modelled. The board printouts, banners and prompts are not modelled.
- **Subprocesses in `test_games.py`.** Running a game file in a subprocess with a timeout is left out. Each run's outcome reaches the counters as a parameter, and whole sessions are modelled separately through `TicTacToeSessions`.
- **`tictactoe/main.py`** is not part of this model. Its only appearance is as a path the simple checks look up.
- **Python's parser and compiler.** `ast.parse` and `compile` in `simple_tests.py` are sets of accepted paths. The node counting of `analyze_code_structure` only prints and is left out.
- SimpleTests.CheckEducationalComments: the floating-point ratio `comment_lines / code_lines >= 0.5` is stated as `2 * comments >= code`, which is the same test on integers.
- **Pong: bricks are values.** A brick is a value in the grid, so destroying it replaces the value; the aliasing of brick objects is not modelled.
- **Pong: graphics and timing.** The graphics window, the shapes and their drawing, `time.sleep`, `getMouse` and the score text are left out.
- **Pong: inputs.** The random serve `random.choice([-3, 3])` and the pressed key are parameters.
- **Chatbot: external calls.** The Bedrock call, `uuid` and the clock are parameters of each exchange.
- **Chatbot: other behaviour.** `KeyboardInterrupt`, end of input on the console, the summary printouts, the JSON formatting of the request body and `demonstrate_llm_statelessness` are left out.
- **Metrics: floating point.** Durations, averages and rounding are floating point and are left out, along with the duration and timestamp of each call record.
- **RAG.** Embeddings, the FAISS vector store, the retriever and the chain are foreign and are left out; `format_docs` and the sample documents are modelled.
- Text.Lower: case folding is ASCII only; Python's full Unicode `lower()` is not modelled, so `letter_counter` on non-ASCII letters is not captured.
- **Strands agents.** The Strands agents, models and tools are foreign, and so is what the agent does with the tool's `ValueError` or the callback's `KeyError`.
- **01-mylists.py.** The print-only loops, `enumerate`, the Celsius conversion (floating point), the stock-price loop, the step slice `[::2]` and the list comprehension are left out.
- **Multi-class tic-tac-toe.** A size-parameterised `Board`/`Player`/`Game` tic-tac-toe is not part of this model; only the two 3x3 scripts are.

## Findings

| source | as written | input that shows it | evidently intended | confidence | as-written member | corrected member |
|---|---|---|---|---|---|---|
| test_games.py:126-131 | "Basic Diagonal Win" types 5, 1, 3, 7, 9 and expects X | X holds 5, 3, 9, which is no line; after five moves both engines still wait for O's move | 5, 3, 1, 7, 9, so that X takes the diagonal 1-5-9 on the fifth move | not executed | TicTacToeVectors.DiagonalVectorAsWritten | TicTacToeVectors.DiagonalVectorCorrected |
| test_games.py:189-194 | "Tie Game" types 1, 2, 3, 4, 5, 6, 8, 7, 9 and expects a tie | the ninth move (9) gives X the diagonal 1-5-9, so both engines announce X | 1, 2, 3, 4, 5, 7, 6, 9, 8, which fills the board with no line | not executed | TicTacToeVectors.TieVectorAsWritten | TicTacToeVectors.TieVectorCorrected |
| tictactoe_lists.py:334 | after the game the nested-list script reads a play-again answer, and the harness's input holds only the moves | every entry of `TEST_CASES`, e.g. 1, 4, 2, 5, 3: the `input()` meets end of input, `EOFError` makes the return code non-zero, and `test_single_game` fails | the harness input ends with an answer line, so the script finishes and the test judges the output | not executed | TicTacToeSessions.ListsWinTestCrashes | TicTacToeSessions.CorrectedTestPasses |
| test_games.py:320-336 | the comparison test types 5, 1, 3, 7, 9 with no answer line and requires both return codes to be 0 and both outputs to announce X | 5, 1, 3, 7, 9: neither game ends, both scripts meet end of input, and the test fails | the corrected diagonal and an answer line, so both scripts finish with an X win | not executed | TicTacToeSessions.ComparisonFails | TicTacToeSessions.CorrectedComparisonPasses |
