/**
 * The brick-breaker "Pong" game: a ball that moves and bounces off the
 * walls, a paddle steered left and right, a grid of bricks that the ball
 * destroys one at a time, and the game object that scores each destroyed
 * brick. Drawing, the window and the frame delay are not modelled; the
 * key read in each frame and the random serve direction are inputs.
 */
module Pong {
  import opened Wrappers

  const ScreenWidth := 800
  const ScreenHeight := 600
  const PaddleSpeed := 15
  const BrickPoints := 10
  /** The brick grid of a new game: 5 rows of 10 bricks of 80 by 30, from (0, 50). */
  const BrickRows := 5
  const BrickCols := 10
  const BrickWidth := 80
  const BrickHeight := 30
  const GridX := 0
  const GridY := 50
  const Colors: seq<string> := ["red", "orange", "yellow", "green", "blue"]

  /** The corner of cell `index` in a line of cells of `size` starting at `start`. */
  function Corner(start: int, index: int, size: int): int {
    start + index * size
  }

  /** The colour of brick row `r`: the five colours in turn. */
  function RowColor(r: nat): string {
    Colors[r % |Colors|]
  }

  // ---------------------------------------------------------------------
  // Ball motion
  // ---------------------------------------------------------------------

  /** A ball's position and velocity. */
  datatype Motion = Motion(x: int, y: int, dx: int, dy: int)

  /** `move`: one step of the velocity. */
  function Step(m: Motion): Motion {
    m.(x := m.x + m.dx, y := m.y + m.dy)
  }

  /** `bounce_horizontal`. */
  function FlipX(m: Motion): Motion {
    m.(dx := -m.dx)
  }

  /** `bounce_vertical`. */
  function FlipY(m: Motion): Motion {
    m.(dy := -m.dy)
  }

  /**
   * `check_wall_collision`: the left, right and top walls are tested in
   * turn; a hit clamps the position to the wall and reverses the component
   * of the velocity towards it. There is no bottom wall.
   */
  function WallBounce(m: Motion, radius: int, width: int): (n: Motion)
    ensures n.y >= radius
    ensures width >= 2 * radius ==> radius <= n.x <= width - radius
    ensures n.dx == m.dx || n.dx == -m.dx
    ensures n.dy == (if m.y - radius <= 0 then -m.dy else m.dy)
    ensures n.y == (if m.y - radius <= 0 then radius else m.y)
    ensures radius < m.x && m.x + radius < width ==> n.x == m.x && n.dx == m.dx
  {
    var afterLeft := if m.x - radius <= 0 then FlipX(m.(x := radius)) else m;
    var afterRight := if afterLeft.x + radius >= width then FlipX(afterLeft.(x := width - radius)) else afterLeft;
    if afterRight.y - radius <= 0 then FlipY(afterRight.(y := radius)) else afterRight
  }

  /**
   * A ball that runs into a wall leaves it: moving left into the left wall,
   * right into the right wall or up into the top, the wall check turns that
   * component of its velocity around.
   */
  lemma BounceTurnsAway(m: Motion, radius: int, width: int)
    requires width > 2 * radius
    ensures m.x - radius <= 0 && m.dx < 0 ==> WallBounce(m, radius, width).dx > 0
    ensures m.x + radius >= width && m.dx > 0 ==> WallBounce(m, radius, width).dx < 0
    ensures m.y - radius <= 0 && m.dy < 0 ==> WallBounce(m, radius, width).dy > 0
  {
  }

  /** On a screen wider than the ball, at most one side wall is hit, so the horizontal speed flips at most once. */
  lemma OneSideWall(m: Motion, radius: int, width: int)
    requires width > 2 * radius
    ensures WallBounce(m, radius, width).dx == (if m.x - radius <= 0 || m.x + radius >= width then -m.dx else m.dx)
  {
  }

  // ---------------------------------------------------------------------
  // Paddle steering
  // ---------------------------------------------------------------------

  /** `move_left`: the paddle moves only if its left edge stays clear of the screen edge by more than one step. */
  function LeftStep(x: int, width: int): int {
    if x - width / 2 > PaddleSpeed then x - PaddleSpeed else x
  }

  /** `move_right`: likewise against the right edge. */
  function RightStep(x: int, width: int, screenWidth: int): int {
    if x + width / 2 < screenWidth - PaddleSpeed then x + PaddleSpeed else x
  }

  /** Both edges of the paddle are strictly inside the screen. */
  predicate OnScreen(x: int, width: int, screenWidth: int) {
    0 < x - width / 2 && x + width / 2 < screenWidth
  }

  /** `handle_input` for the steering keys: the paddle's x after each key in turn. */
  function Steer(x: int, width: int, screenWidth: int, keys: seq<string>): int
    decreases |keys|
  {
    if keys == [] then x
    else
      var next := if keys[0] == "Left" then LeftStep(x, width)
        else if keys[0] == "Right" then RightStep(x, width, screenWidth) else x;
      Steer(next, width, screenWidth, keys[1..])
  }

  /** A paddle that starts on the screen stays on it whatever keys are pressed. */
  lemma {:induction false} SteerStaysOnScreen(x: int, width: int, screenWidth: int, keys: seq<string>)
    requires OnScreen(x, width, screenWidth)
    ensures OnScreen(Steer(x, width, screenWidth, keys), width, screenWidth)
    decreases |keys|
  {
    if keys != [] {
      var next := if keys[0] == "Left" then LeftStep(x, width)
        else if keys[0] == "Right" then RightStep(x, width, screenWidth) else x;
      assert OnScreen(next, width, screenWidth);
      SteerStaysOnScreen(next, width, screenWidth, keys[1..]);
    }
  }

  /** Each step moves the paddle by exactly the speed or not at all, and only when the guard holds. */
  lemma StepsMoveBySpeed(x: int, width: int, screenWidth: int)
    ensures LeftStep(x, width) == x - PaddleSpeed <==> x - width / 2 > PaddleSpeed
    ensures LeftStep(x, width) != x - PaddleSpeed ==> LeftStep(x, width) == x
    ensures RightStep(x, width, screenWidth) == x + PaddleSpeed <==> x + width / 2 < screenWidth - PaddleSpeed
    ensures RightStep(x, width, screenWidth) != x + PaddleSpeed ==> RightStep(x, width, screenWidth) == x
  {
  }

  /** The paddle's rectangle, centred on (x, y), meets the ball's bounding box. */
  predicate PaddleOverlap(x: int, y: int, width: int, height: int, ballX: int, ballY: int, radius: int) {
    && ballY + radius >= y - height / 2
    && ballY - radius <= y + height / 2
    && ballX >= x - width / 2
    && ballX <= x + width / 2
  }

  /** The brick's rectangle, with top-left corner (x, y), meets the ball's bounding box. */
  predicate BoxOverlap(x: int, y: int, width: int, height: int, ballX: int, ballY: int, radius: int) {
    && ballX + radius >= x
    && ballX - radius <= x + width
    && ballY + radius >= y
    && ballY - radius <= y + height
  }

  // ---------------------------------------------------------------------
  // The brick flags: row-major first hit and counting
  // ---------------------------------------------------------------------

  /** (i, j) comes before (r, c) in row-major order. */
  predicate Before(i: int, j: int, r: int, c: int) {
    i < r || (i == r && j < c)
  }

  function FirstInRow(row: seq<bool>, from: nat): (c: Option<nat>)
    requires from <= |row|
    ensures c.Some? ==> from <= c.value < |row| && row[c.value] && forall j :: from <= j < c.value ==> !row[j]
    ensures c.None? ==> forall j :: from <= j < |row| ==> !row[j]
    decreases |row| - from
  {
    if from == |row| then None else if row[from] then Some(from) else FirstInRow(row, from + 1)
  }

  /** The first set flag in row-major order, from row `from` on. */
  function FirstHitFrom(m: seq<seq<bool>>, from: nat): (p: Option<(nat, nat)>)
    requires from <= |m|
    ensures p.Some? ==>
      && from <= p.value.0 < |m| && p.value.1 < |m[p.value.0]| && m[p.value.0][p.value.1]
      && forall i, j :: from <= i < |m| && 0 <= j < |m[i]| && Before(i, j, p.value.0, p.value.1) ==> !m[i][j]
    ensures p.None? ==> forall i, j :: from <= i < |m| && 0 <= j < |m[i]| ==> !m[i][j]
    decreases |m| - from
  {
    if from == |m| then None
    else match FirstInRow(m[from], 0)
      case Some(c) => Some((from, c))
      case None => FirstHitFrom(m, from + 1)
  }

  function FirstHit(m: seq<seq<bool>>): Option<(nat, nat)> {
    FirstHitFrom(m, 0)
  }

  // ---------------------------------------------------------------------
  // Bricks: hits, destruction and counting
  // ---------------------------------------------------------------------

  /** A brick: its corner, size and colour, and whether it is destroyed. */
  datatype Brick = Brick(x: int, y: int, width: int, height: int, color: string, destroyed: bool)
  {
    /** `check_ball_collision` for a ball at (ballX, ballY): a destroyed brick is never hit. */
    predicate HitAt(ballX: int, ballY: int, radius: int)
      ensures HitAt(ballX, ballY, radius) ==> !destroyed
      ensures !destroyed ==> (HitAt(ballX, ballY, radius) <==> BoxOverlap(x, y, width, height, ballX, ballY, radius))
    {
      !destroyed && BoxOverlap(x, y, width, height, ballX, ballY, radius)
    }

    /** `destroy`: idempotent, and nothing but the flag changes. */
    function Destroy(): (b: Brick)
      ensures b.destroyed && b.(destroyed := destroyed) == this
    {
      if destroyed then this else this.(destroyed := true)
    }
  }

  /** Which bricks of a row a ball at (ballX, ballY) hits. */
  function RowHits(row: seq<Brick>, ballX: int, ballY: int, radius: int): seq<bool> {
    if row == [] then []
    else RowHits(row[..|row| - 1], ballX, ballY, radius) + [row[|row| - 1].HitAt(ballX, ballY, radius)]
  }

  /** Which bricks a ball at (ballX, ballY) hits, cell by cell. */
  function Hits(bricks: seq<seq<Brick>>, ballX: int, ballY: int, radius: int): seq<seq<bool>> {
    if bricks == [] then []
    else Hits(bricks[..|bricks| - 1], ballX, ballY, radius) + [RowHits(bricks[|bricks| - 1], ballX, ballY, radius)]
  }

  lemma {:induction false} RowHitsIndex(row: seq<Brick>, ballX: int, ballY: int, radius: int)
    ensures |RowHits(row, ballX, ballY, radius)| == |row|
    ensures forall c :: 0 <= c < |row| ==> RowHits(row, ballX, ballY, radius)[c] == row[c].HitAt(ballX, ballY, radius)
    decreases |row|
  {
    if row != [] {
      RowHitsIndex(row[..|row| - 1], ballX, ballY, radius);
    }
  }

  /** Cell (r, c) of the hits is whether the ball hits brick (r, c). */
  lemma {:induction false} HitsIndex(bricks: seq<seq<Brick>>, ballX: int, ballY: int, radius: int)
    ensures |Hits(bricks, ballX, ballY, radius)| == |bricks|
    ensures forall r :: 0 <= r < |bricks| ==> Hits(bricks, ballX, ballY, radius)[r] == RowHits(bricks[r], ballX, ballY, radius)
    decreases |bricks|
  {
    if bricks != [] {
      HitsIndex(bricks[..|bricks| - 1], ballX, ballY, radius);
    }
  }

  /** The bricks after the one at `p`, if any, is destroyed. */
  function DestroyAt(bricks: seq<seq<Brick>>, p: Option<(nat, nat)>): seq<seq<Brick>> {
    if p.Some? && p.value.0 < |bricks| && p.value.1 < |bricks[p.value.0]| then
      bricks[p.value.0 := bricks[p.value.0][p.value.1 := bricks[p.value.0][p.value.1].Destroy()]]
    else bricks
  }

  /** Destroying at `p` changes the destroyed flag of the brick at `p` and nothing else. */
  lemma DestroyAtOnly(bricks: seq<seq<Brick>>, p: Option<(nat, nat)>)
    ensures var b := DestroyAt(bricks, p);
      && |b| == |bricks| && (forall r :: 0 <= r < |bricks| ==> |b[r]| == |bricks[r]|)
      && forall r, c :: 0 <= r < |bricks| && 0 <= c < |bricks[r]| ==>
           b[r][c] == (if p == Some((r, c)) then bricks[r][c].Destroy() else bricks[r][c])
  {
  }

  function RowDestroyed(row: seq<Brick>): (n: nat)
    ensures n <= |row|
  {
    if row == [] then 0 else RowDestroyed(row[..|row| - 1]) + (if row[|row| - 1].destroyed then 1 else 0)
  }

  /** How many bricks are destroyed. */
  function Destroyed(bricks: seq<seq<Brick>>): nat {
    if bricks == [] then 0 else Destroyed(bricks[..|bricks| - 1]) + RowDestroyed(bricks[|bricks| - 1])
  }

  /** How many bricks there are. */
  function Size(bricks: seq<seq<Brick>>): nat {
    if bricks == [] then 0 else Size(bricks[..|bricks| - 1]) + |bricks[|bricks| - 1]|
  }

  predicate AllGone(bricks: seq<seq<Brick>>) {
    forall r, c :: 0 <= r < |bricks| && 0 <= c < |bricks[r]| ==> bricks[r][c].destroyed
  }

  /** Destroying a live brick adds one to the row's count. */
  lemma {:induction false} RowDestroyedSet(row: seq<Brick>, c: nat)
    requires c < |row| && !row[c].destroyed
    ensures RowDestroyed(row[c := row[c].Destroy()]) == RowDestroyed(row) + 1
    decreases |row|
  {
    var n := |row|;
    var row' := row[c := row[c].Destroy()];
    if c < n - 1 {
      assert row'[..n - 1] == row[..n - 1][c := row[c].Destroy()];
      RowDestroyedSet(row[..n - 1], c);
    } else {
      assert row'[..n - 1] == row[..n - 1];
    }
  }

  /** Destroying a live brick adds one to the count. */
  lemma {:induction false} DestroyedSet(bricks: seq<seq<Brick>>, r: nat, c: nat)
    requires r < |bricks| && c < |bricks[r]| && !bricks[r][c].destroyed
    ensures Destroyed(DestroyAt(bricks, Some((r, c)))) == Destroyed(bricks) + 1
    decreases |bricks|
  {
    var n := |bricks|;
    var b' := DestroyAt(bricks, Some((r, c)));
    if r < n - 1 {
      assert b'[..n - 1] == DestroyAt(bricks[..n - 1], Some((r, c)));
      DestroyedSet(bricks[..n - 1], r, c);
    } else {
      assert b'[..n - 1] == bricks[..n - 1];
      RowDestroyedSet(bricks[r], c);
    }
  }

  /** A row is cleared exactly when its count is its length. */
  lemma {:induction false} RowDestroyedFull(row: seq<Brick>)
    ensures RowDestroyed(row) == |row| <==> forall c :: 0 <= c < |row| ==> row[c].destroyed
    decreases |row|
  {
    if row != [] {
      var n := |row|;
      RowDestroyedFull(row[..n - 1]);
      assert forall c :: 0 <= c < n - 1 ==> row[..n - 1][c] == row[c];
    }
  }

  /** Every brick is destroyed exactly when the count reaches the number of bricks. */
  lemma {:induction false} DestroyedFull(bricks: seq<seq<Brick>>)
    ensures Destroyed(bricks) <= Size(bricks)
    ensures Destroyed(bricks) == Size(bricks) <==> AllGone(bricks)
    decreases |bricks|
  {
    if bricks != [] {
      var n := |bricks|;
      DestroyedFull(bricks[..n - 1]);
      RowDestroyedFull(bricks[n - 1]);
      assert forall r :: 0 <= r < n - 1 ==> bricks[..n - 1][r] == bricks[r];
    }
  }

  /** No brick destroyed: the count is zero. */
  lemma {:induction false} DestroyedNone(bricks: seq<seq<Brick>>)
    requires forall r, c :: 0 <= r < |bricks| && 0 <= c < |bricks[r]| ==> !bricks[r][c].destroyed
    ensures Destroyed(bricks) == 0
    decreases |bricks|
  {
    if bricks != [] {
      var n := |bricks|;
      assert RowDestroyed(bricks[n - 1]) == 0 by {
        RowDestroyedNone(bricks[n - 1]);
      }
      assert forall r :: 0 <= r < n - 1 ==> bricks[..n - 1][r] == bricks[r];
      DestroyedNone(bricks[..n - 1]);
    }
  }

  lemma {:induction false} RowDestroyedNone(row: seq<Brick>)
    requires forall c :: 0 <= c < |row| ==> !row[c].destroyed
    ensures RowDestroyed(row) == 0
    decreases |row|
  {
    if row != [] {
      RowDestroyedNone(row[..|row| - 1]);
    }
  }

  /** The first brick hit is live, so destroying it scores exactly one brick. */
  lemma FirstHitScores(bricks: seq<seq<Brick>>, ballX: int, ballY: int, radius: int)
    ensures var first := FirstHit(Hits(bricks, ballX, ballY, radius));
      Destroyed(DestroyAt(bricks, first)) == Destroyed(bricks) + (if first.Some? then 1 else 0)
  {
    var first := FirstHit(Hits(bricks, ballX, ballY, radius));
    if first.Some? {
      var (r, c) := first.value;
      HitsIndex(bricks, ballX, ballY, radius);
      RowHitsIndex(bricks[r], ballX, ballY, radius);
      DestroyedSet(bricks, r, c);
    }
  }

  /** A set flag with none before it in row-major order is the first hit. */
  lemma FirstHitIs(m: seq<seq<bool>>, r: nat, c: nat)
    requires r < |m| && c < |m[r]| && m[r][c]
    requires forall i, j :: 0 <= i < r && 0 <= j < |m[i]| ==> !m[i][j]
    requires forall j :: 0 <= j < c ==> !m[r][j]
    ensures FirstHit(m) == Some((r, c))
  {
  }

  /** Brick `c` of row `r` as the grid builds it: corner, size, row colour, live. */
  function Laid(r: nat, c: nat, brickWidth: int, brickHeight: int, startX: int, startY: int): Brick {
    Brick(Corner(startX, c, brickWidth), Corner(startY, r, brickHeight), brickWidth, brickHeight, RowColor(r), false)
  }

  /** The `rows` by `cols` bricks the grid lays out, row by row. */
  function Layout(rows: nat, cols: nat, brickWidth: int, brickHeight: int, startX: int, startY: int): (g: seq<seq<Brick>>)
    ensures |g| == rows && forall r :: 0 <= r < rows ==> |g[r]| == cols
    ensures forall r, c :: 0 <= r < rows && 0 <= c < cols ==> g[r][c] == Laid(r, c, brickWidth, brickHeight, startX, startY)
  {
    seq(rows, r requires 0 <= r => seq(cols, c requires 0 <= c => Laid(r, c, brickWidth, brickHeight, startX, startY)))
  }

  /** A freshly laid-out grid has no destroyed brick. */
  lemma LayoutNoneDestroyed(rows: nat, cols: nat, brickWidth: int, brickHeight: int, startX: int, startY: int)
    ensures Destroyed(Layout(rows, cols, brickWidth, brickHeight, startX, startY)) == 0
  {
    DestroyedNone(Layout(rows, cols, brickWidth, brickHeight, startX, startY));
  }

  // ---------------------------------------------------------------------
  // The game objects
  // ---------------------------------------------------------------------

  class Ball {
    var x: int
    var y: int
    var dx: int
    var dy: int
    const radius: int

    /** The serve direction, `random.choice([-3, 3])`, is the parameter `serveRight`. */
    constructor (x0: int, y0: int, radius0: int, serveRight: bool)
      ensures State() == Motion(x0, y0, if serveRight then 3 else -3, 3) && radius == radius0
    {
      x, y, radius := x0, y0, radius0;
      dx := if serveRight then 3 else -3;
      dy := 3;
    }

    function State(): Motion
      reads this
    {
      Motion(x, y, dx, dy)
    }

    method Move()
      modifies this
      ensures State() == Step(old(State()))
    {
      x := x + dx;
      y := y + dy;
    }

    method BounceHorizontal()
      modifies this
      ensures State() == FlipX(old(State()))
    {
      dx := -dx;
    }

    method BounceVertical()
      modifies this
      ensures State() == FlipY(old(State()))
    {
      dy := -dy;
    }

    method CheckWallCollision(width: int, height: int)
      modifies this
      ensures State() == WallBounce(old(State()), radius, width)
    {
      if x - radius <= 0 {
        x := radius;
        BounceHorizontal();
      }
      if x + radius >= width {
        x := width - radius;
        BounceHorizontal();
      }
      if y - radius <= 0 {
        y := radius;
        BounceVertical();
      }
    }

    predicate IsBelowScreen(height: int)
      reads this
    {
      y > height
    }
  }

  class Paddle {
    var x: int
    const y: int
    const width: int
    const height: int
    const speed: int

    constructor (x0: int, y0: int, width0: int, height0: int)
      ensures x == x0 && y == y0 && width == width0 && height == height0 && speed == PaddleSpeed
    {
      x, y, width, height := x0, y0, width0, height0;
      speed := PaddleSpeed;
    }

    method MoveLeft()
      requires speed == PaddleSpeed
      modifies this
      ensures x == LeftStep(old(x), width)
    {
      if x - width / 2 > speed {
        x := x - speed;
      }
    }

    method MoveRight(screenWidth: int)
      requires speed == PaddleSpeed
      modifies this
      ensures x == RightStep(old(x), width, screenWidth)
    {
      if x + width / 2 < screenWidth - speed {
        x := x + speed;
      }
    }

    predicate HitsBall(ball: Ball)
      reads this, ball
    {
      PaddleOverlap(x, y, width, height, ball.x, ball.y, ball.radius)
    }
  }


  class BrickGrid {
    var bricks: seq<seq<Brick>>

    /**
     * A `rows` by `cols` grid of live bricks: brick (r, c) has its corner at
     * (startX + c * brickWidth, startY + r * brickHeight), and the row colours
     * cycle through the five colours.
     */
    constructor (rows: nat, cols: nat, brickWidth: int, brickHeight: int, startX: int, startY: int)
      ensures bricks == Layout(rows, cols, brickWidth, brickHeight, startX, startY)
      ensures |bricks| == rows && forall r :: 0 <= r < rows ==> |bricks[r]| == cols
      ensures Destroyed(bricks) == 0
      ensures forall r, c :: 0 <= r < rows && 0 <= c < cols ==>
        bricks[r][c] == Brick(Corner(startX, c, brickWidth), Corner(startY, r, brickHeight),
                              brickWidth, brickHeight, RowColor(r), false)
    {
      var grid: seq<seq<Brick>> := [];
      for row := 0 to rows
        invariant |grid| == row && forall r :: 0 <= r < row ==> |grid[r]| == cols
        invariant forall r, c :: 0 <= r < row && 0 <= c < cols ==> grid[r][c] == Laid(r, c, brickWidth, brickHeight, startX, startY)
      {
        var brickRow: seq<Brick> := [];
        for col := 0 to cols
          invariant |brickRow| == col
          invariant forall c :: 0 <= c < col ==> brickRow[c] == Laid(row, c, brickWidth, brickHeight, startX, startY)
        {
          var brick := Brick(Corner(startX, col, brickWidth), Corner(startY, row, brickHeight),
                             brickWidth, brickHeight, RowColor(row), false);
          brickRow := brickRow + [brick];
        }
        grid := grid + [brickRow];
      }
      ghost var laid := Layout(rows, cols, brickWidth, brickHeight, startX, startY);
      forall r | 0 <= r < rows ensures grid[r] == laid[r] {
      }
      bricks := grid;
      LayoutNoneDestroyed(rows, cols, brickWidth, brickHeight, startX, startY);
    }

    /**
     * `check_ball_collision`: the bricks are tried in row-major order and the
     * first one the ball hits, if any, is destroyed; the answer says whether
     * there was one.
     */
    method CheckBallCollision(ball: Ball) returns (hit: bool)
      modifies this
      ensures var first := FirstHit(Hits(old(bricks), ball.x, ball.y, ball.radius));
        && hit == first.Some?
        && bricks == DestroyAt(old(bricks), first)
    {
      ghost var hits := Hits(bricks, ball.x, ball.y, ball.radius);
      HitsIndex(bricks, ball.x, ball.y, ball.radius);
      for r := 0 to |bricks|
        invariant forall i, j :: 0 <= i < r && 0 <= j < |hits[i]| ==> !hits[i][j]
        invariant bricks == old(bricks)
      {
        RowHitsIndex(bricks[r], ball.x, ball.y, ball.radius);
        for c := 0 to |bricks[r]|
          invariant forall i, j :: 0 <= i < r && 0 <= j < |hits[i]| ==> !hits[i][j]
          invariant forall j :: 0 <= j < c ==> !hits[r][j]
          invariant bricks == old(bricks)
        {
          if bricks[r][c].HitAt(ball.x, ball.y, ball.radius) {
            FirstHitIs(hits, r, c);
            bricks := bricks[r := bricks[r][c := bricks[r][c].Destroy()]];
            return true;
          }
        }
      }
      assert FirstHit(hits) == None;
      return false;
    }

    /** `all_destroyed`: the row-major scan answers whether every brick is destroyed. */
    method AllDestroyed() returns (all: bool)
      ensures all <==> AllGone(bricks)
    {
      for r := 0 to |bricks|
        invariant forall i, j :: 0 <= i < r && 0 <= j < |bricks[i]| ==> bricks[i][j].destroyed
      {
        for c := 0 to |bricks[r]|
          invariant forall j :: 0 <= j < c ==> bricks[r][j].destroyed
        {
          if !bricks[r][c].destroyed {
            return false;
          }
        }
      }
      return true;
    }
  }

  // ---------------------------------------------------------------------
  // The game
  // ---------------------------------------------------------------------

  /** One frame of the main loop: the key `checkKey` returned, and the serve a restart in it would draw. */
  datatype Frame = Frame(key: string, serveRight: bool)

  /** Everything `run` changes, as a value: the ball, the paddle, the bricks, the flags and the score. */
  datatype Scene = Scene(
    ball: Motion, radius: int,
    paddleX: int, paddleY: int, paddleWidth: int, paddleHeight: int,
    bricks: seq<seq<Brick>>,
    running: bool, gameOver: bool, score: int)

  /** The scene of a new game: `Ball(400, 300, 10)`, `Paddle(400, 550, 100, 20)` and `BrickGrid(5, 10, 80, 30, 0, 50)`. */
  function NewScene(serveRight: bool): Scene {
    Scene(Motion(400, 300, if serveRight then 3 else -3, 3), 10, 400, 550, 100, 20,
          Layout(BrickRows, BrickCols, BrickWidth, BrickHeight, GridX, GridY), true, false, 0)
  }

  /** `handle_input` for one key. */
  function KeyPressed(v: Scene, f: Frame): Scene {
    if f.key == "Left" then v.(paddleX := LeftStep(v.paddleX, v.paddleWidth))
    else if f.key == "Right" then v.(paddleX := RightStep(v.paddleX, v.paddleWidth, ScreenWidth))
    else if f.key == "r" then NewScene(f.serveRight)
    else if f.key == "q" then v.(running := false)
    else v
  }

  /** `update_game`: ball, walls, paddle, the first brick hit, then the two end conditions. */
  function Update(v: Scene): Scene {
    var moved := WallBounce(Step(v.ball), v.radius, ScreenWidth);
    var bounced := if PaddleOverlap(v.paddleX, v.paddleY, v.paddleWidth, v.paddleHeight, moved.x, moved.y, v.radius)
      then FlipY(moved) else moved;
    var first := FirstHit(Hits(v.bricks, bounced.x, bounced.y, v.radius));
    var ball := if first.Some? then FlipY(bounced) else bounced;
    var bricks := DestroyAt(v.bricks, first);
    v.(ball := ball, bricks := bricks,
       score := v.score + (if first.Some? then BrickPoints else 0),
       gameOver := v.gameOver || ball.y > ScreenHeight || AllGone(bricks))
  }

  /** One pass of the `while self._running` loop: handle the key, then update unless the game is over. */
  function Tick(v: Scene, f: Frame): Scene {
    var h := KeyPressed(v, f);
    if h.gameOver then h else Update(h)
  }

  /** `run` over the frames: one pass per frame while running. */
  function RunFrames(v: Scene, frames: seq<Frame>): Scene
    decreases |frames|
  {
    if !v.running || frames == [] then v else RunFrames(Tick(v, frames[0]), frames[1..])
  }

  /** Ten points per destroyed brick holds for every scene `run` reaches. */
  lemma {:induction false} RunKeepsScore(v: Scene, frames: seq<Frame>)
    requires v.score == BrickPoints * Destroyed(v.bricks)
    ensures var w := RunFrames(v, frames); w.score == BrickPoints * Destroyed(w.bricks)
    decreases |frames|
  {
    if v.running && frames != [] {
      var h := KeyPressed(v, frames[0]);
      if frames[0].key == "r" {
        LayoutNoneDestroyed(BrickRows, BrickCols, BrickWidth, BrickHeight, GridX, GridY);
      }
      assert h.score == BrickPoints * Destroyed(h.bricks);
      if !h.gameOver {
        var moved := WallBounce(Step(h.ball), h.radius, ScreenWidth);
        var bounced := if PaddleOverlap(h.paddleX, h.paddleY, h.paddleWidth, h.paddleHeight, moved.x, moved.y, h.radius)
          then FlipY(moved) else moved;
        FirstHitScores(h.bricks, bounced.x, bounced.y, h.radius);
      }
      RunKeepsScore(Tick(v, frames[0]), frames[1..]);
    }
  }

  /**
   * Once the game is over, `update_game` is no longer called: until an "r"
   * frame, the ball, the bricks and the score stay as they are, and the game
   * stays over.
   */
  lemma {:induction false} OverFreezes(v: Scene, frames: seq<Frame>)
    requires v.gameOver
    requires forall i :: 0 <= i < |frames| ==> frames[i].key != "r"
    ensures var w := RunFrames(v, frames);
      w.gameOver && w.ball == v.ball && w.bricks == v.bricks && w.score == v.score
    decreases |frames|
  {
    if v.running && frames != [] {
      OverFreezes(Tick(v, frames[0]), frames[1..]);
    }
  }

  /** A "q" frame stops the loop for good: `running` is false at the end, whatever frames follow. */
  lemma {:induction false} QuitStops(v: Scene, frames: seq<Frame>)
    requires exists i :: 0 <= i < |frames| && frames[i].key == "q"
    ensures !RunFrames(v, frames).running
    decreases |frames|
  {
    if v.running {
      var i :| 0 <= i < |frames| && frames[i].key == "q";
      if i == 0 {
        StaysStopped(Tick(v, frames[0]), frames[1..]);
      } else {
        assert frames[1..][i - 1].key == "q";
        QuitStops(Tick(v, frames[0]), frames[1..]);
      }
    }
  }

  /** A stopped loop processes no frame. */
  lemma StaysStopped(v: Scene, frames: seq<Frame>)
    requires !v.running
    ensures RunFrames(v, frames) == v
  {
  }

  class Game {
    var ball: Ball
    var paddle: Paddle
    var grid: BrickGrid
    var running: bool
    var gameOver: bool
    var score: int

    /** The score is ten points per destroyed brick. */
    ghost predicate Valid()
      reads this, grid
    {
      && paddle.speed == PaddleSpeed
      && score == BrickPoints * Destroyed(grid.bricks)
    }

    /** The game's state as a value. */
    function Snapshot(): Scene
      reads this, ball, paddle, grid
    {
      Scene(ball.State(), ball.radius, paddle.x, paddle.y, paddle.width, paddle.height,
            grid.bricks, running, gameOver, score)
    }

    /** A new game: ball served from the centre, paddle at the bottom, 5 by 10 live bricks, score zero. */
    predicate Fresh()
      reads this, ball, paddle, grid
    {
      && ball.State().x == 400 && ball.State().y == 300 && ball.dy == 3 && ball.radius == 10
      && paddle.x == 400 && paddle.y == 550 && paddle.width == 100 && paddle.height == 20
      && |grid.bricks| == 5 && (forall r :: 0 <= r < 5 ==> |grid.bricks[r]| == 10)
      && Destroyed(grid.bricks) == 0
      && running && !gameOver && score == 0
    }

    constructor (serveRight: bool)
      ensures Valid() && Fresh() && ball.dx == (if serveRight then 3 else -3)
      ensures Snapshot() == NewScene(serveRight)
    {
      var b := new Ball(400, 300, 10, serveRight);
      var p := new Paddle(400, 550, 100, 20);
      var g := new BrickGrid(BrickRows, BrickCols, BrickWidth, BrickHeight, GridX, GridY);
      ball, paddle, grid, running, gameOver, score := b, p, g, true, false, 0;
    }

    /**
     * `restart_game`: a new ball, paddle and brick grid, the score back to
     * zero, the game running and not over.
     */
    method Restart(serveRight: bool)
      modifies this
      ensures Valid() && Fresh() && ball.dx == (if serveRight then 3 else -3)
      ensures Snapshot() == NewScene(serveRight)
      ensures fresh(ball) && fresh(paddle) && fresh(grid)
    {
      var b := new Ball(400, 300, 10, serveRight);
      var p := new Paddle(400, 550, 100, 20);
      var g := new BrickGrid(BrickRows, BrickCols, BrickWidth, BrickHeight, GridX, GridY);
      ball, paddle, grid, running, gameOver, score := b, p, g, true, false, 0;
    }

    /**
     * `handle_input`: "Left" and "Right" steer the paddle, "r" restarts the
     * game with the serve `serveRight`, "q" stops the main loop, and any
     * other key, or none, changes nothing.
     */
    method HandleInput(key: string, serveRight: bool)
      requires Valid()
      modifies this, paddle
      ensures Valid()
      ensures key != "r" ==>
        && ball == old(ball) && paddle == old(paddle) && grid == old(grid)
        && gameOver == old(gameOver) && score == old(score)
      ensures key == "Left" ==> paddle.x == LeftStep(old(paddle.x), paddle.width) && running == old(running)
      ensures key == "Right" ==> paddle.x == RightStep(old(paddle.x), paddle.width, ScreenWidth) && running == old(running)
      ensures key == "r" ==> Fresh() && fresh(ball) && fresh(paddle) && fresh(grid)
      ensures key == "q" ==> !running && paddle.x == old(paddle.x)
      ensures key !in {"Left", "Right", "r", "q"} ==> paddle.x == old(paddle.x) && running == old(running)
      ensures Snapshot() == KeyPressed(old(Snapshot()), Frame(key, serveRight))
    {
      if key == "Left" {
        paddle.MoveLeft();
      } else if key == "Right" {
        paddle.MoveRight(ScreenWidth);
      } else if key == "r" {
        Restart(serveRight);
      } else if key == "q" {
        running := false;
      }
    }

    /**
     * The first part of `update_game`: move the ball, bounce it off the
     * walls, and off the paddle when they overlap.
     */
    method MoveBall()
      modifies ball
      ensures var moved := WallBounce(Step(old(ball.State())), ball.radius, ScreenWidth);
        ball.State() ==
          if PaddleOverlap(paddle.x, paddle.y, paddle.width, paddle.height, moved.x, moved.y, ball.radius)
          then FlipY(moved) else moved
    {
      ball.Move();
      ball.CheckWallCollision(ScreenWidth, ScreenHeight);
      if paddle.HitsBall(ball) {
        ball.BounceVertical();
      }
    }

    /**
     * The brick part of `update_game`: the first brick the ball hits is
     * destroyed, the ball bounces, and the score goes up by ten points.
     */
    method BreakBrick()
      requires Valid()
      modifies this, ball, grid
      ensures Valid()
      ensures ball == old(ball) && paddle == old(paddle) && grid == old(grid)
      ensures var first := FirstHit(Hits(old(grid.bricks), old(ball.x), old(ball.y), ball.radius));
        && ball.State() == (if first.Some? then FlipY(old(ball.State())) else old(ball.State()))
        && grid.bricks == DestroyAt(old(grid.bricks), first)
        && score == old(score) + (if first.Some? then BrickPoints else 0)
      ensures running == old(running) && gameOver == old(gameOver)
    {
      FirstHitScores(grid.bricks, ball.x, ball.y, ball.radius);
      var hit := grid.CheckBallCollision(ball);
      if hit {
        ball.BounceVertical();
        score := score + BrickPoints;
      }
    }

    /** The last part of `update_game`: the game is over when the ball is below the screen or no brick is left. */
    method CheckOver()
      modifies this
      ensures gameOver == (old(gameOver) || ball.y > ScreenHeight || AllGone(grid.bricks))
      ensures ball == old(ball) && paddle == old(paddle) && grid == old(grid)
      ensures running == old(running) && score == old(score)
    {
      if ball.IsBelowScreen(ScreenHeight) {
        gameOver := true;
      }
      var all := grid.AllDestroyed();
      if all {
        gameOver := true;
      }
    }

    /**
     * `update_game`: move the ball, bounce it off the walls, off the paddle,
     * and off the first brick it hits, which is destroyed for ten points;
     * the game is over when the ball is below the screen or no brick is left.
     */
    method UpdateGame()
      requires Valid()
      modifies this, ball, grid
      ensures Valid()
      ensures ball == old(ball) && paddle == old(paddle) && grid == old(grid)
      ensures var moved := WallBounce(Step(old(ball.State())), ball.radius, ScreenWidth);
        var afterPaddle := if PaddleOverlap(paddle.x, paddle.y, paddle.width, paddle.height, moved.x, moved.y, ball.radius)
          then FlipY(moved) else moved;
        var first := FirstHit(Hits(old(grid.bricks), afterPaddle.x, afterPaddle.y, ball.radius));
        && ball.State() == (if first.Some? then FlipY(afterPaddle) else afterPaddle)
        && grid.bricks == DestroyAt(old(grid.bricks), first)
        && score == old(score) + (if first.Some? then BrickPoints else 0)
      ensures gameOver == (old(gameOver) || ball.y > ScreenHeight || AllGone(grid.bricks))
      ensures running == old(running)
      ensures Snapshot() == Update(old(Snapshot()))
    {
      MoveBall();
      BreakBrick();
      CheckOver();
    }

    /** The body of `run`'s loop: handle the frame's key, then update the game unless it is over. */
    method Pass(f: Frame)
      requires Valid() && running
      modifies this, ball, paddle, grid
      ensures Valid()
      ensures Snapshot() == Tick(old(Snapshot()), f)
      ensures running <==> f.key != "q"
      ensures ball == old(ball) || fresh(ball)
      ensures paddle == old(paddle) || fresh(paddle)
      ensures grid == old(grid) || fresh(grid)
    {
      HandleInput(f.key, f.serveRight);
      if !gameOver {
        UpdateGame();
      }
    }

    /**
     * `run`: while the game is running, each frame handles its key and, if
     * the game is not over, updates it. The frames stand for the window's
     * key events; the loop stops when they run out or "q" is pressed.
     */
    method Run(frames: seq<Frame>)
      requires Valid()
      modifies this, ball, paddle, grid
      ensures Valid()
      ensures Snapshot() == RunFrames(old(Snapshot()), frames)
      ensures running <==> old(running) && forall i :: 0 <= i < |frames| ==> frames[i].key != "q"
    {
      var i := 0;
      while running && i < |frames|
        invariant 0 <= i <= |frames|
        invariant Valid()
        invariant RunFrames(Snapshot(), frames[i..]) == RunFrames(old(Snapshot()), frames)
        invariant running <==> old(running) && forall j :: 0 <= j < i ==> frames[j].key != "q"
        invariant ball == old(ball) || fresh(ball)
        invariant paddle == old(paddle) || fresh(paddle)
        invariant grid == old(grid) || fresh(grid)
        decreases |frames| - i
      {
        assert frames[i..] == [frames[i]] + frames[i + 1..];
        Pass(frames[i]);
        i := i + 1;
      }
    }
  }
}
