/**
 * Games played with distinct positions, as the test harness feeds them.
 *
 * When every typed position is on the board and none repeats, each line is
 * accepted, so the board after k moves is the starting board with the k
 * positions marked X, O, X, ... in turn (`Marked`). This module proves that
 * the nested-list script really produces that board, that no line can be
 * complete before the fifth move, and how the move that completes a line or
 * fills the board ends the game.
 */
module TicTacToeReplay {
  import opened Wrappers
  import opened TicTacToe
  import L = TicTacToeLists
  import opened Text

  /** The mark of the k-th move (counting from 0): X moves first and turns alternate. */
  function Mark(k: nat): (m: char)
    ensures IsMark(m)
    ensures m == 'X' <==> k % 2 == 0
  {
    if k % 2 == 0 then 'X' else 'O'
  }

  /** After the k-th move the turn passes to the mark of move k + 1. */
  lemma MarkAlternates(k: nat)
    ensures Opponent(Mark(k)) == Mark(k + 1)
  {
    if k % 2 == 0 {
      assert (k + 1) % 2 == 1;
    } else {
      assert (k + 1) % 2 == 0;
    }
  }

  /** Positions on the board, none typed twice. */
  predicate DistinctPositions(ms: seq<int>) {
    && (forall i :: 0 <= i < |ms| ==> 1 <= ms[i] <= 9)
    && (forall i, j :: 0 <= i < j < |ms| ==> ms[i] != ms[j])
  }

  /** Dropping the last position keeps the rest distinct, and the last one is not among them. */
  lemma DistinctInit(ms: seq<int>)
    requires DistinctPositions(ms) && ms != []
    ensures DistinctPositions(ms[..|ms| - 1])
    ensures ms[|ms| - 1] !in ms[..|ms| - 1]
    ensures ms == ms[..|ms| - 1] + [ms[|ms| - 1]]
  {
    var init := ms[..|ms| - 1];
    forall i | 0 <= i < |init| ensures init[i] != ms[|ms| - 1] {
      assert init[i] == ms[i];
    }
  }

  const Labels: seq<char> := "123456789"

  lemma LabelsAreLabels()
    ensures |Labels| == 9 && forall p :: 1 <= p <= 9 ==> Labels[p - 1] == Label(p)
  {
  }

  /** The board, cell by cell, after the moves `ms` were placed alternately. */
  function Marked(ms: seq<int>): (cs: seq<char>)
    requires forall i :: 0 <= i < |ms| ==> 1 <= ms[i] <= 9
    ensures |cs| == 9
  {
    if ms == [] then Labels
    else Marked(ms[..|ms| - 1])[ms[|ms| - 1] - 1 := Mark(|ms| - 1)]
  }

  /** A cell no move went to still shows its label; the i-th move's cell shows the i-th mark. */
  lemma {:induction false} MarkedCells(ms: seq<int>)
    requires DistinctPositions(ms)
    ensures forall p :: 1 <= p <= 9 && p !in ms ==> Marked(ms)[p - 1] == Label(p)
    ensures forall i :: 0 <= i < |ms| ==> Marked(ms)[ms[i] - 1] == Mark(i)
  {
    LabelsAreLabels();
    if ms != [] {
      var init := ms[..|ms| - 1];
      DistinctInit(ms);
      MarkedCells(init);
      forall p | 1 <= p <= 9 && p !in ms ensures Marked(ms)[p - 1] == Label(p) {
        assert p !in init && p != ms[|ms| - 1];
      }
      forall i | 0 <= i < |ms| ensures Marked(ms)[ms[i] - 1] == Mark(i) {
        if i < |ms| - 1 {
          assert ms[i] == init[i] && ms[i] != ms[|ms| - 1];
        }
      }
    }
  }

  // ---------------------------------------------------------------------
  // Nobody can win before the fifth move
  // ---------------------------------------------------------------------

  /** Cells at the given indices that all hold `c` are each counted. */
  lemma {:induction false} CountAtLeast(cs: seq<char>, c: char, at: set<int>)
    requires forall i :: i in at ==> 0 <= i < |cs| && cs[i] == c
    ensures CountChar(cs, c) >= |at|
    decreases |cs|
  {
    if cs != [] {
      var last := |cs| - 1;
      var rest := at - {last};
      forall i | i in rest ensures 0 <= i < |cs[..last]| && cs[..last][i] == c {
      }
      CountAtLeast(cs[..last], c, rest);
    } else {
      assert forall i :: i !in at;
      assert at == {};
    }
  }

  /** A value that occurs nowhere is counted zero times. */
  lemma {:induction false} CountCharAbsent(cs: seq<char>, c: char)
    requires forall i :: 0 <= i < |cs| ==> cs[i] != c
    ensures CountChar(cs, c) == 0
    decreases |cs|
  {
    if cs != [] {
      CountCharAbsent(cs[..|cs| - 1], c);
    }
  }

  /** Writing a mark over a label adds one to that mark's count and leaves the others. */
  lemma {:induction false} CountCharUpdate(cs: seq<char>, i: int, m: char, c: char)
    requires 0 <= i < |cs| && !IsMark(cs[i]) && IsMark(m) && IsMark(c)
    ensures CountChar(cs[i := m], c) == CountChar(cs, c) + (if c == m then 1 else 0)
    decreases |cs|
  {
    var last := |cs| - 1;
    if i == last {
      assert cs[i := m][..last] == cs[..last];
    } else {
      CountCharUpdate(cs[..last], i, m, c);
      assert cs[i := m][..last] == cs[..last][i := m];
    }
  }

  /** After k alternating moves X holds ceil(k/2) cells and O floor(k/2). */
  lemma {:induction false} MarkCounts(ms: seq<int>)
    requires DistinctPositions(ms)
    ensures CountChar(Marked(ms), 'X') == (|ms| + 1) / 2
    ensures CountChar(Marked(ms), 'O') == |ms| / 2
  {
    if ms == [] {
      CountCharAbsent(Labels, 'X');
      CountCharAbsent(Labels, 'O');
    } else {
      var init := ms[..|ms| - 1];
      var p := ms[|ms| - 1];
      DistinctInit(ms);
      MarkCounts(init);
      MarkedCells(init);
      CountCharUpdate(Marked(init), p - 1, Mark(|ms| - 1), 'X');
      CountCharUpdate(Marked(init), p - 1, Mark(|ms| - 1), 'O');
    }
  }

  /** Three equal marks in a row, column or diagonal means at least three cells with that mark. */
  lemma CompleteLineCounts(g: L.Grid)
    requires L.Shaped(g) && !L.NoLineWins(g)
    ensures exists m :: IsMark(m) && CountChar(L.Cells(g), m) >= 3
  {
    var cs := L.Cells(g);
    L.ScanSound(g);
    var w := L.Scan(g).value;
    var at: set<int>;
    if exists i :: 0 <= i < 3 && L.RowWins(g, i) && g[i][0] == w {
      var i :| 0 <= i < 3 && L.RowWins(g, i) && g[i][0] == w;
      at := {3 * i, 3 * i + 1, 3 * i + 2};
    } else if exists j :: 0 <= j < 3 && L.ColWins(g, j) && g[0][j] == w {
      var j :| 0 <= j < 3 && L.ColWins(g, j) && g[0][j] == w;
      at := {j, 3 + j, 6 + j};
    } else if L.MainDiagWins(g) && g[0][0] == w {
      at := {0, 4, 8};
    } else {
      at := {2, 4, 6};
    }
    assert |at| == 3;
    CountAtLeast(cs, w, at);
  }

  /**
   * The fastest possible win takes five moves: with at most four moves
   * placed no player holds three cells, so no line is complete.
   */
  lemma EarliestWin(ms: seq<int>)
    requires DistinctPositions(ms) && |ms| <= 4
    ensures L.NoLineWins(Board(ms))
  {
    MarkCounts(ms);
    if !L.NoLineWins(Board(ms)) {
      CompleteLineCounts(Board(ms));
    }
  }

  // ---------------------------------------------------------------------
  // The script replays the moves
  // ---------------------------------------------------------------------

  /** Nine cells as the nested list of three rows. */
  function Rows(cs: seq<char>): (g: L.Grid)
    requires |cs| == 9
    ensures L.Shaped(g) && L.Cells(g) == cs
  {
    [[cs[0], cs[1], cs[2]], [cs[3], cs[4], cs[5]], [cs[6], cs[7], cs[8]]]
  }

  /** Two boards with the same cells are the same board. */
  lemma SameCells(g: L.Grid, h: L.Grid)
    requires L.Shaped(g) && L.Shaped(h) && L.Cells(g) == L.Cells(h)
    ensures g == h
  {
    assert g[0] == L.Cells(g)[0..3] && g[1] == L.Cells(g)[3..6] && g[2] == L.Cells(g)[6..9];
    assert h[0] == L.Cells(h)[0..3] && h[1] == L.Cells(h)[3..6] && h[2] == L.Cells(h)[6..9];
  }

  function Board(ms: seq<int>): (g: L.Grid)
    requires forall i :: 0 <= i < |ms| ==> 1 <= ms[i] <= 9
    ensures L.Shaped(g) && L.Cells(g) == Marked(ms)
  {
    Rows(Marked(ms))
  }

  /** The globals while the game is still running after the moves `ms`. */
  function Running(ms: seq<int>): (s: L.State)
    requires forall i :: 0 <= i < |ms| ==> 1 <= ms[i] <= 9
  {
    GameState(Board(ms), Mark(|ms|), |ms|, false, "")
  }

  /** Reading one more line: nothing happens once the game is over, otherwise one `Play`. */
  lemma {:induction false} RunAppend(s: L.State, xs: seq<Option<int>>, x: Option<int>)
    requires L.Shaped(s.board)
    ensures L.Run(s, xs + [x]) ==
      (var t := L.Run(s, xs); if t.over then t else L.Play(t, x).0)
    decreases |xs|
  {
    if s.over {
    } else if xs == [] {
      assert ([] + [x])[1..] == [];
    } else {
      assert (xs + [x])[1..] == xs[1..] + [x];
      RunAppend(L.Play(s, xs[0]).0, xs[1..], x);
    }
  }

  /** Where `g` shows a mark, `h` shows the same mark: every line complete in `g` is complete in `h`. */
  lemma NoLineMonotone(g: L.Grid, h: L.Grid)
    requires L.Shaped(g) && L.Shaped(h)
    requires forall r, c :: 0 <= r < 3 && 0 <= c < 3 ==> g[r][c] == h[r][c] || !IsMark(g[r][c])
    requires L.NoLineWins(h)
    ensures L.NoLineWins(g)
  {
    forall i | 0 <= i < 3 ensures !L.RowWins(g, i) && !L.ColWins(g, i) {
      assert !L.RowWins(h, i) && !L.ColWins(h, i);
    }
  }

  /** A cell marked after the first `k` moves keeps its mark after all of them. */
  lemma PrefixCell(ms: seq<int>, k: nat, q: int)
    requires DistinctPositions(ms) && k <= |ms| && 0 <= q < 9
    ensures Marked(ms[..k])[q] == Marked(ms)[q] || !IsMark(Marked(ms[..k])[q])
  {
    var pre := ms[..k];
    var p := q + 1;
    MarkedCells(pre);
    if p in pre {
      var i :| 0 <= i < |pre| && pre[i] == p;
      MarkedCells(ms);
      assert ms[i] == p;
    } else {
      assert Marked(pre)[p - 1] == Label(p);
    }
  }

  /** A board with no complete line had none after any earlier move either. */
  lemma NoLineBefore(ms: seq<int>, k: nat)
    requires DistinctPositions(ms) && k <= |ms| && L.NoLineWins(Board(ms))
    ensures L.NoLineWins(Board(ms[..k]))
  {
    forall q | 0 <= q < 9
      ensures Marked(ms[..k])[q] == Marked(ms)[q] || !IsMark(Marked(ms[..k])[q])
    {
      PrefixCell(ms, k, q);
    }
    NoLineMonotone(Board(ms[..k]), Board(ms));
  }

  /** Adding a position not typed before keeps the positions distinct. */
  lemma DistinctSnoc(ms: seq<int>, p: int)
    requires DistinctPositions(ms) && 1 <= p <= 9 && p !in ms
    ensures DistinctPositions(ms + [p])
    ensures (ms + [p])[..|ms|] == ms
  {
  }

  /**
   * While no line is complete and fewer than nine moves are made, the
   * script is exactly at `Running(ms)`: every position was accepted, marks
   * alternate starting with X, and `moves_made` counts the positions.
   */
  lemma {:induction false} QuietRun(ms: seq<int>)
    requires DistinctPositions(ms) && |ms| < 9 && L.NoLineWins(Board(ms))
    ensures L.Run(L.Initial, L.Typed(ms)) == Running(ms)
    decreases |ms|
  {
    if ms == [] {
      assert Marked([]) == Labels;
      SameCells(Board([]), L.InitialGrid);
    } else {
      var init := ms[..|ms| - 1];
      var p := ms[|ms| - 1];
      DistinctInit(ms);
      NoLineBefore(ms, |ms| - 1);
      QuietRun(init);
      LastMove(init, p);
      assert L.Scan(Board(ms)) == None by {
        L.ScanSound(Board(ms));
      }
      MarkAlternates(|init|);
      assert |init| + 1 == |ms|;
      ghost var before := GameState(Board(ms), Mark(|init|), |ms|, false, "");
      assert L.Decide(before) == before.(current := Opponent(Mark(|init|)));
    }
  }

  /** The move after a quiet stretch: it is accepted, placed, and then decided. */
  lemma LastMove(ms: seq<int>, p: int)
    requires DistinctPositions(ms) && 1 <= p <= 9 && p !in ms && |ms| < 9
    requires L.Run(L.Initial, L.Typed(ms)) == Running(ms)
    ensures DistinctPositions(ms + [p])
    ensures Board(ms + [p]) == L.Place(Running(ms), L.ToCell(p).0, L.ToCell(p).1).board
    ensures L.Run(L.Initial, L.Typed(ms + [p])) ==
      L.Decide(GameState(Board(ms + [p]), Mark(|ms|), |ms| + 1, false, ""))
  {
    DistinctSnoc(ms, p);
    var all := ms + [p];
    assert L.Typed(all) == L.Typed(ms) + [Some(p)];
    RunAppend(L.Initial, L.Typed(ms), Some(p));
    MarkedCells(ms);
    var s := Running(ms);
    assert L.Cells(s.board)[p - 1] == Label(p);
    var (r, c) := L.ToCell(p);
    assert L.Play(s, Some(p)).0 == L.AfterMove(s, r, c);
    assert L.Cells(L.Place(s, r, c).board) == Marked(all);
    SameCells(L.Place(s, r, c).board, Board(all));
  }

  /**
   * A move that completes a line ends the game with the mover as winner;
   * a ninth move that completes none ends it in a tie; any other move
   * passes the turn.
   */
  lemma DecidingMove(ms: seq<int>, p: int)
    requires DistinctPositions(ms) && 1 <= p <= 9 && p !in ms && |ms| < 9
    requires L.NoLineWins(Board(ms))
    ensures DistinctPositions(ms + [p])
    ensures var t := L.Run(L.Initial, L.Typed(ms + [p]));
      && t.moves == |ms| + 1 && t.board == Board(ms + [p])
      && (L.Scan(t.board).Some? ==> t.over && t.winner == [Mark(|ms|)])
      && (L.Scan(t.board).None? && |ms| == 8 ==> t.over && t.winner == "Tie")
      && (L.Scan(t.board).None? && |ms| < 8 ==> !t.over && t.current == Mark(|ms| + 1))
  {
    QuietRun(ms);
    LastMove(ms, p);
    var (r, c) := L.ToCell(p);
    var g := Board(ms + [p]);
    assert L.Scan(g).Some? ==> L.Scan(g) == Some(Mark(|ms|)) by {
      L.NewLineIsMover(Board(ms), r, c, Mark(|ms|));
    }
    MarkAlternates(|ms|);
    ghost var placed := GameState(g, Mark(|ms|), |ms| + 1, false, "");
    assert L.Decide(placed).moves == |ms| + 1 && L.Decide(placed).board == g;
  }

  /**
   * A game whose last move completes the first line on the board ends with
   * that move: the mover of move |ms| - 1 is declared the winner.
   */
  lemma WinningMove(ms: seq<int>)
    requires DistinctPositions(ms) && 1 <= |ms| <= 9
    requires L.NoLineWins(Board(ms[..|ms| - 1])) && !L.NoLineWins(Board(ms))
    ensures var t := L.Run(L.Initial, L.Typed(ms));
      t.over && t.winner == [Mark(|ms| - 1)] && t.moves == |ms| && t.board == Board(ms)
  {
    DistinctInit(ms);
    DecidingMove(ms[..|ms| - 1], ms[|ms| - 1]);
    L.ScanSound(Board(ms));
  }

  /** A ninth move that completes no line ends the game in a tie. */
  lemma FullBoardTie(ms: seq<int>)
    requires DistinctPositions(ms) && |ms| == 9 && L.NoLineWins(Board(ms))
    ensures var t := L.Run(L.Initial, L.Typed(ms));
      t.over && t.winner == "Tie" && t.moves == 9 && t.board == Board(ms)
  {
    DistinctInit(ms);
    NoLineBefore(ms, 8);
    DecidingMove(ms[..8], ms[8]);
    L.ScanSound(Board(ms));
  }
}
