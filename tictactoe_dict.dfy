/**
 * The dictionary tic-tac-toe script (tictactoe_dict.py). The board maps the
 * keys 1..9 to one-character strings, the key's own digit while free and
 * 'X' or 'O' once taken; the win check is an explicit chain of the eight
 * lines, tried in order, followed by the tie check.
 *
 * As for the nested-list script, the rules come first as functions on the
 * globals, then the class `DictGame` whose board is a map field that each
 * move reassigns.
 */
module TicTacToeDict {
  import opened Wrappers
  import opened TicTacToe

  type Board = map<int, char>
  type State = GameState<Board>

  /** Exactly the keys 1..9. */
  ghost predicate Full(m: Board) {
    forall p :: p in m <==> 1 <= p <= 9
  }

  const InitialBoard: Board :=
    map[1 := '1', 2 := '2', 3 := '3', 4 := '4', 5 := '5', 6 := '6', 7 := '7', 8 := '8', 9 := '9']

  const Initial: State := GameState(InitialBoard, 'X', 0, false, "")

  /** The range check, then the occupancy check by direct key access. */
  function Validation(m: Board, input: Option<int>): (a: Attempt)
    requires Full(m)
    ensures a == NotANumber <==> input.None?
    ensures a.OutOfRange? <==> input.Some? && !(1 <= input.value <= 9)
    ensures a.OutOfRange? ==> a.number == input.value
    ensures a.Accepted? <==> input.Some? && 1 <= input.value <= 9 && !IsMark(m[input.value])
    ensures a.Taken? ==> input == Some(a.position) && 1 <= a.position <= 9
                         && a.holder == m[a.position] && IsMark(a.holder)
    ensures a.Accepted? ==> input == Some(a.position)
  {
    match input
    case None => NotANumber
    case Some(p) =>
      if 1 <= p <= 9 then
        if m[p] !in ['X', 'O'] then Accepted(p) else Taken(p, m[p])
      else OutOfRange(p)
  }

  /** `board[a] == board[b] == board[c] and board[a] in ['X', 'O']`. */
  predicate Line(m: Board, a: int, b: int, c: int)
    requires Full(m) && 1 <= a <= 9 && 1 <= b <= 9 && 1 <= c <= 9
  {
    m[a] == m[b] && m[b] == m[c] && IsMark(m[a])
  }

  /** The eight winning lines, in the order the script tries them. */
  const Lines: seq<(int, int, int)> :=
    [(1, 2, 3), (4, 5, 6), (7, 8, 9), (1, 4, 7), (2, 5, 8), (3, 6, 9), (1, 5, 9), (3, 5, 7)]

  predicate NoLineWins(m: Board)
    requires Full(m)
  {
    forall k :: 0 <= k < |Lines| ==> !Line(m, Lines[k].0, Lines[k].1, Lines[k].2)
  }

  /** The `if ... elif ...` chain over the eight lines: the mark of the first complete line. */
  function Scan(m: Board): (w: Option<char>)
    requires Full(m)
    ensures w.Some? ==> IsMark(w.value)
    ensures w.None? ==> NoLineWins(m)
  {
    if Line(m, 1, 2, 3) then Some(m[1])
    else if Line(m, 4, 5, 6) then Some(m[4])
    else if Line(m, 7, 8, 9) then Some(m[7])
    else if Line(m, 1, 4, 7) then Some(m[1])
    else if Line(m, 2, 5, 8) then Some(m[2])
    else if Line(m, 3, 6, 9) then Some(m[3])
    else if Line(m, 1, 5, 9) then Some(m[1])
    else if Line(m, 3, 5, 7) then Some(m[3])
    else None
  }

  /**
   * The chain reports a mark exactly when one of the eight lines is
   * complete, and it is the mark of the first such line in `Lines`.
   */
  lemma ScanSound(m: Board)
    requires Full(m)
    ensures Scan(m).None? <==> NoLineWins(m)
    ensures Scan(m).Some? ==>
      exists k :: (0 <= k < |Lines|
        && Line(m, Lines[k].0, Lines[k].1, Lines[k].2) && Scan(m) == Some(m[Lines[k].0])
        && forall k' :: 0 <= k' < k ==> !Line(m, Lines[k'].0, Lines[k'].1, Lines[k'].2))
  {
    if Scan(m).Some? {
      var k := if Line(m, 1, 2, 3) then 0
        else if Line(m, 4, 5, 6) then 1
        else if Line(m, 7, 8, 9) then 2
        else if Line(m, 1, 4, 7) then 3
        else if Line(m, 2, 5, 8) then 4
        else if Line(m, 3, 6, 9) then 5
        else if Line(m, 1, 5, 9) then 6
        else 7;
      assert Line(m, Lines[k].0, Lines[k].1, Lines[k].2) && Scan(m) == Some(m[Lines[k].0]);
      forall k' | 0 <= k' < k ensures !Line(m, Lines[k'].0, Lines[k'].1, Lines[k'].2) {
        assert k' == 0 || k' == 1 || k' == 2 || k' == 3 || k' == 4 || k' == 5 || k' == 6;
      }
    }
  }

  /** `board[position] = current_player` and `moves_made = moves_made + 1`. */
  function Place(s: State, p: int): (t: State)
    requires Full(s.board) && 1 <= p <= 9
    ensures Full(t.board)
  {
    s.(board := s.board[p := s.current], moves := s.moves + 1)
  }

  /** The win chain's final `elif moves_made == 9`, then the player switch. */
  function Decide(s: State): (t: State)
    requires Full(s.board)
    ensures t.board == s.board && t.moves == s.moves
  {
    match Scan(s.board)
    case Some(w) => s.(over := true, winner := [w])
    case None =>
      if s.moves == 9 then s.(over := true, winner := "Tie")
      else s.(current := Opponent(s.current))
  }

  function AfterMove(s: State, p: int): (t: State)
    requires Full(s.board) && 1 <= p <= 9
    ensures Full(t.board)
  {
    Decide(Place(s, p))
  }

  /**
   * One line of input while the game runs: a rejected line changes nothing;
   * an accepted one rewrites exactly the key typed, with the current player.
   */
  function Play(s: State, input: Option<int>): (r: (State, Attempt))
    requires Full(s.board) && !s.over
    ensures Full(r.0.board)
    ensures r.1 == Validation(s.board, input)
    ensures !r.1.Accepted? ==> r.0 == s
    ensures r.1.Accepted? ==>
      && input == Some(r.1.position) && !IsMark(s.board[r.1.position])
      && r.0.moves == s.moves + 1
      && r.0.board == s.board[r.1.position := s.current]
  {
    var a := Validation(s.board, input);
    if a.Accepted? then (AfterMove(s, a.position), a) else (s, a)
  }

  /** The game loop on a finite list of input lines. */
  function Run(s: State, inputs: seq<Option<int>>): (t: State)
    requires Full(s.board)
    ensures Full(t.board)
    ensures s.over ==> t == s
    ensures t.moves >= s.moves
    decreases |inputs|
  {
    if s.over || inputs == [] then s else Run(Play(s, inputs[0]).0, inputs[1..])
  }

  /** Reading one line while the game runs: `Run` and `Consumed` continue from `Play`'s state. */
  lemma ReadLine(s: State, inputs: seq<Option<int>>)
    requires Full(s.board) && !s.over && inputs != []
    ensures Run(s, inputs) == Run(Play(s, inputs[0]).0, inputs[1..])
    ensures Consumed(s, inputs) == 1 + Consumed(Play(s, inputs[0]).0, inputs[1..])
  {
  }

  /** How many input lines the loop reads: one per prompt, until the game is over or the lines run out. */
  function Consumed(s: State, inputs: seq<Option<int>>): (n: nat)
    requires Full(s.board)
    ensures n <= |inputs|
    ensures s.over ==> n == 0
    ensures !s.over && inputs != [] ==> n >= 1
    decreases |inputs|
  {
    if s.over || inputs == [] then 0 else 1 + Consumed(Play(s, inputs[0]).0, inputs[1..])
  }

  /** The values in key order, 1 to 9. */
  function Cells(m: Board): (cs: seq<char>)
    requires Full(m)
    ensures |cs| == 9 && forall p :: 1 <= p <= 9 ==> cs[p - 1] == m[p]
  {
    seq(9, i requires 0 <= i < 9 => m[i + 1])
  }

  /** The script's globals, with the board as a dictionary field reassigned on every move. */
  class DictGame {
    var board: Board
    var currentPlayer: char
    var gameOver: bool
    var winner: string
    var movesMade: nat

    function State(): State
      reads this
    {
      GameState(board, currentPlayer, movesMade, gameOver, winner)
    }

    /** The game set-up section. */
    constructor ()
      ensures State() == Initial
    {
      board := map[1 := '1', 2 := '2', 3 := '3', 4 := '4', 5 := '5', 6 := '6', 7 := '7', 8 := '8', 9 := '9'];

      currentPlayer := 'X';
      gameOver := false;
      winner := "";
      movesMade := 0;
    }

    /** One pass of the validation loop: no coordinate conversion, direct key access. */
    method ValidateInput(input: Option<int>) returns (a: Attempt)
      requires Full(board)
      ensures a == Validation(board, input)
      ensures a.Accepted? <==> input.Some? && 1 <= input.value <= 9 && !IsMark(board[input.value])
    {
      match input {
        case None =>
          a := NotANumber;
        case Some(position) =>
          if position >= 1 && position <= 9 {
            if board[position] !in ['X', 'O'] {
              a := Accepted(position);
            } else {
              a := Taken(position, board[position]);
            }
          } else {
            a := OutOfRange(position);
          }
      }
    }

    /** The explicit chain of eight line checks, the tie check and the switch. */
    method DecideOutcome()
      requires Full(board) && !gameOver
      modifies this`gameOver, this`winner, this`currentPlayer
      ensures State() == Decide(old(State()))
    {
      var b := board;
      ghost var found := Scan(b);
      if b[1] == b[2] == b[3] && b[1] in ['X', 'O'] {
        assert found == Some(b[1]);
        winner, gameOver := [b[1]], true;
      } else if b[4] == b[5] == b[6] && b[4] in ['X', 'O'] {
        assert found == Some(b[4]);
        winner, gameOver := [b[4]], true;
      } else if b[7] == b[8] == b[9] && b[7] in ['X', 'O'] {
        assert found == Some(b[7]);
        winner, gameOver := [b[7]], true;
      } else if b[1] == b[4] == b[7] && b[1] in ['X', 'O'] {
        assert found == Some(b[1]);
        winner, gameOver := [b[1]], true;
      } else if b[2] == b[5] == b[8] && b[2] in ['X', 'O'] {
        assert found == Some(b[2]);
        winner, gameOver := [b[2]], true;
      } else if b[3] == b[6] == b[9] && b[3] in ['X', 'O'] {
        assert found == Some(b[3]);
        winner, gameOver := [b[3]], true;
      } else if b[1] == b[5] == b[9] && b[1] in ['X', 'O'] {
        assert found == Some(b[1]);
        winner, gameOver := [b[1]], true;
      } else if b[3] == b[5] == b[7] && b[3] in ['X', 'O'] {
        assert found == Some(b[3]);
        winner, gameOver := [b[3]], true;
      } else if movesMade == 9 {
        assert found == None;
        winner, gameOver := "Tie", true;
      }
      assert !gameOver ==> found == None && movesMade != 9;
      if !gameOver {
        if currentPlayer == 'X' {
          currentPlayer := 'O';
        } else {
          currentPlayer := 'X';
        }
      }
    }

    /** "MAKE THE MOVE": `board[position] = current_player`, count it, settle the outcome. */
    method MakeMove(position: int)
      requires Full(board) && !gameOver && 1 <= position <= 9
      modifies this
      ensures State() == AfterMove(old(State()), position)
    {
      board := board[position := currentPlayer];
      movesMade := movesMade + 1;
      DecideOutcome();
    }

    /**
     * The inner `while not valid_move` loop: read lines from `inputs[from..]`
     * until one is accepted or none are left. Every line before the accepted
     * one is rejected and changes nothing; `next` is the first unread line.
     */
    method ReadMove(inputs: seq<Option<int>>, from: nat) returns (found: bool, position: int, next: nat)
      requires Full(board) && !gameOver && from <= |inputs|
      ensures from <= next <= |inputs|
      ensures 1 <= position <= 9
      ensures forall i :: from <= i < next - (if found then 1 else 0) ==>
        !Validation(board, inputs[i]).Accepted?
      ensures !found ==> next == |inputs|
      ensures found ==> from < next && Validation(board, inputs[next - 1]) == Accepted(position)
      ensures Run(State(), inputs[from..]) ==
        Run(if found then AfterMove(State(), position) else State(), inputs[next..])
      ensures Consumed(State(), inputs[from..]) ==
        next - from + Consumed(if found then AfterMove(State(), position) else State(), inputs[next..])
    {
      found, position, next := false, 1, from;
      ghost var s := State();
      while next < |inputs|
        invariant from <= next <= |inputs|
        invariant forall i :: from <= i < next ==> !Validation(s.board, inputs[i]).Accepted?
        invariant Run(s, inputs[from..]) == Run(s, inputs[next..])
        invariant Consumed(s, inputs[from..]) == next - from + Consumed(s, inputs[next..])
        decreases |inputs| - next
      {
        var a := ValidateInput(inputs[next]);
        ReadLine(s, inputs[next..]);
        assert inputs[next..][1..] == inputs[next + 1..];
        next := next + 1;
        if a.Accepted? {
          found := true;
          position := a.position;
          return;
        }
      }
    }

    /** The two nested loops of the script on a finite list of input lines; returns how many were read. */
    method PlayGame(inputs: seq<Option<int>>) returns (used: nat)
      requires Full(board)
      modifies this
      ensures used == Consumed(old(State()), inputs)
      ensures State() == Run(old(State()), inputs)
    {
      used := 0;
      while !gameOver && used < |inputs|
        invariant Full(board)
        invariant used <= |inputs|
        invariant Run(old(State()), inputs) == Run(State(), inputs[used..])
        invariant used + Consumed(State(), inputs[used..]) == Consumed(old(State()), inputs)
        decreases |inputs| - used
      {
        var validMove, position, next := ReadMove(inputs, used);
        used := next;
        if validMove {
          MakeMove(position);
        }
      }
    }
  }
}
