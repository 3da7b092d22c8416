/**
 * One frame of the game layer's update, stated on values. The puck's vector
 * is damped and added to its (previous) next position; then, once for each
 * paddle in the players list, the collision test, the side walls, the goal
 * lines, the store of the puck's vector and next position and the commit of
 * every next position run in sequence, so the wall, goal and commit code
 * runs twice per frame.
 */
module Physics {
  import opened Geometry
  import opened Court
  import opened Input

  /** Per-frame damping of the puck's vector. */
  const Damping: real := 0.98

  /** Factor applied to the velocity component normal to a wall on a bounce. */
  const Restitution: real := -0.8

  /** Size of the table and width of the goal mouths. */
  datatype Table = Table(width: real, height: real, goalWidth: real)

  /** The three bodies of the layer plus the number of hit sounds played so far. */
  datatype World = World(ball: Sprite, player1: Sprite, player2: Sprite, hits: nat)

  /** The update's working copy of the puck: its vector, next position and the hit count. */
  datatype Flight = Flight(vector: Vec2, next: Vec2, hits: nat)

  /**
   * The collision response, whose trigonometry is not modelled: from the
   * puck's vector, the paddle's vector, the offset of the puck's next position
   * from the paddle's position, the paddle's next position and the sum of the
   * two radii it gives the puck's new vector and next position.
   */
  type Response = (Vec2, Vec2, Vec2, Vec2, real) -> (Vec2, Vec2)

  /**
   * The collision test: either the puck's next position is within the sum of
   * the radii of the paddle's position, or the puck's position is within it of
   * the paddle's next position (squared distances against the squared sum).
   */
  predicate Collides(ballNext: Vec2, ballPosition: Vec2, paddle: Sprite, squaredRadii: real)
  {
    ballNext.Minus(paddle.position).LengthSquared() <= squaredRadii ||
    ballPosition.Minus(paddle.nextPosition).LengthSquared() <= squaredRadii
  }

  /**
   * The paddle test of one pass: on a collision the collision response
   * replaces the puck's vector and next position and one hit plays.
   */
  function PaddleCollision(f: Flight, ball: Sprite, paddle: Sprite, squaredRadii: real, respond: Response): Flight
  {
    if Collides(f.next, ball.position, paddle, squaredRadii) then
      var answer := respond(f.vector, paddle.vector, f.next.Minus(paddle.position),
                            paddle.nextPosition, paddle.radius + ball.radius);
      Flight(answer.0, answer.1, f.hits + 1)
    else f
  }

  /** The left-wall test: the next x ends at least `r`; y is never touched. */
  function LeftWall(f: Flight, r: real): (g: Flight)
    ensures g.next.x >= r
    ensures g.next.y == f.next.y && g.vector.y == f.vector.y
    ensures g.hits <= f.hits + 1
  {
    if f.next.x < r then Flight(f.vector.(x := f.vector.x * Restitution), f.next.(x := r), f.hits + 1)
    else f
  }

  /** The right-wall test: the next x ends at most `width - r`; y is never touched. */
  function RightWall(f: Flight, r: real, width: real): (g: Flight)
    ensures g.next.x <= width - r
    ensures g.next.y == f.next.y && g.vector.y == f.vector.y
    ensures g.hits <= f.hits + 1
  {
    if f.next.x > width - r then Flight(f.vector.(x := f.vector.x * Restitution), f.next.(x := width - r), f.hits + 1)
    else f
  }

  /**
   * The two side-wall tests, left then right: on a table at least one puck
   * wide the next x ends in [r, width - r]; y is never touched.
   */
  function SideWalls(f: Flight, r: real, width: real): (g: Flight)
    ensures 2.0 * r <= width ==> r <= g.next.x <= width - r
    ensures g.next.y == f.next.y && g.vector.y == f.vector.y
  {
    RightWall(LeftWall(f, r), r, width)
  }

  /** The top-line test: outside the goal mouth the next y ends at most `height - r`; x is never touched. */
  function TopLine(f: Flight, r: real, height: real, inGoal: bool): (g: Flight)
    ensures !inGoal ==> g.next.y <= height - r
    ensures inGoal ==> g == f
    ensures g.next.x == f.next.x && g.vector.x == f.vector.x
  {
    if f.next.y > height - r then
      if !inGoal then Flight(f.vector.(y := f.vector.y * Restitution), f.next.(y := height - r), f.hits + 1)
      else f
    else f
  }

  /** The bottom-line test: outside the goal mouth the next y ends at least `r`; x is never touched. */
  function BottomLine(f: Flight, r: real, inGoal: bool): (g: Flight)
    ensures !inGoal ==> g.next.y >= r
    ensures inGoal ==> g == f
    ensures g.next.x == f.next.x && g.vector.x == f.vector.x
  {
    if f.next.y < r then
      if !inGoal then Flight(f.vector.(y := f.vector.y * Restitution), f.next.(y := r), f.hits + 1)
      else f
    else f
  }

  /**
   * The top and bottom tests, both suppressed while the puck is inside the
   * goal mouth: otherwise, on a table at least one puck tall, the next y ends
   * in [r, height - r]. x is never touched.
   */
  function GoalLines(f: Flight, r: real, height: real, inGoal: bool): (g: Flight)
    ensures inGoal ==> g == f
    ensures !inGoal && 2.0 * r <= height ==> r <= g.next.y <= height - r
    ensures g.next.x == f.next.x && g.vector.x == f.vector.x
  {
    BottomLine(TopLine(f, r, height, inGoal), r, inGoal)
  }

  function Square(v: real): real { v * v }

  /** The squared collision distance, taken from the first player's radius. */
  function SquaredRadii(w: World): real
  {
    Square(w.player1.radius + w.ball.radius)
  }

  /**
   * One pass of the per-player loop for player `i` (0 is the first player,
   * 1 the second), with the squared collision distance `sq` computed before
   * the loop. The goal-mouth test reads the puck's committed position.
   */
  function Pass(w: World, i: nat, f: Flight, t: Table, sq: real, respond: Response): (res: (World, Flight))
    requires i < 2
    ensures res.0.ball.position == res.0.ball.nextPosition == res.1.next
    ensures res.0.ball.vector == res.1.vector && res.0.hits == res.1.hits
    ensures res.0.player1 == w.player1.(position := w.player1.nextPosition)
    ensures res.0.player2 == w.player2.(position := w.player2.nextPosition)
    ensures 2.0 * w.ball.radius <= t.width ==>
              w.ball.radius <= res.1.next.x <= t.width - w.ball.radius
  {
    var paddle := if i == 0 then w.player1 else w.player2;
    var r := w.ball.radius;
    var hit := PaddleCollision(f, w.ball, paddle, sq, respond);
    var walled := SideWalls(hit, r, t.width);
    var inGoal := InsideGoalMouth(w.ball.position.x, t.width, t.goalWidth);
    var g := GoalLines(walled, r, t.height, inGoal);
    var ball := w.ball.(vector := g.vector, nextPosition := g.next, position := g.next);
    (World(ball,
           w.player1.(position := w.player1.nextPosition),
           w.player2.(position := w.player2.nextPosition),
           g.hits),
     g)
  }

  /** The puck's working copy before the loop: damped vector, added to the previous next position. */
  function Launch(w: World): Flight
  {
    var v := w.ball.vector.Scale(Damping);
    Flight(v, w.ball.nextPosition.Plus(v), w.hits)
  }

  /** The state after the first `i` passes of the per-player loop. */
  function Passes(w: World, t: Table, sq: real, respond: Response, i: nat): (World, Flight)
    requires i <= 2
    decreases i
  {
    if i == 0 then (w, Launch(w))
    else
      var before := Passes(w, t, sq, respond, i - 1);
      Pass(before.0, i - 1, before.1, t, sq, respond)
  }

  /** One whole frame of the update. */
  function Frame(w: World, t: Table, respond: Response): World
  {
    Passes(w, t, SquaredRadii(w), respond, 2).0
  }

  // ---------------------------------------------------------------- lemmas

  /** |a| > b >= 0 makes a * a exceed b * b. */
  lemma SquareExceeds(a: real, b: real)
    requires 0.0 <= b < Abs(a)
    ensures b * b < a * a
  {
    var m := Abs(a);
    assert a * a == m * m;
    var p, q := m - b, m + b;
    assert p * q > 0.0;
    assert p * q == m * m - b * b;
  }

  /** An offset whose squared length is within rho squared lies in the square [-rho, rho]². */
  lemma WithinSquare(d: Vec2, rho: real)
    requires rho >= 0.0 && d.LengthSquared() <= rho * rho
    ensures Abs(d.x) <= rho && Abs(d.y) <= rho
  {
    assert d.x * d.x >= 0.0 && d.y * d.y >= 0.0;
    if Abs(d.x) > rho { SquareExceeds(d.x, rho); }
    if Abs(d.y) > rho { SquareExceeds(d.y, rho); }
  }

  /**
   * With the squared sum of radii rho², a collision means one of the two
   * tested offsets lies within rho of the other centre on both axes.
   */
  lemma CollidesNear(ballNext: Vec2, ballPosition: Vec2, paddle: Sprite, rho: real)
    requires rho >= 0.0 && Collides(ballNext, ballPosition, paddle, rho * rho)
    ensures var d1 := ballNext.Minus(paddle.position);
            var d2 := ballPosition.Minus(paddle.nextPosition);
            || (Abs(d1.x) <= rho && Abs(d1.y) <= rho)
            || (Abs(d2.x) <= rho && Abs(d2.y) <= rho)
  {
    var d1 := ballNext.Minus(paddle.position);
    var d2 := ballPosition.Minus(paddle.nextPosition);
    if d1.LengthSquared() <= rho * rho {
      WithinSquare(d1, rho);
    } else {
      WithinSquare(d2, rho);
    }
  }

  /** A puck whose next position is the paddle's centre always collides, whatever the radii. */
  lemma CollidesAtCentre(ballPosition: Vec2, paddle: Sprite, rho: real)
    ensures Collides(paddle.position, ballPosition, paddle, rho * rho)
  {
    assert paddle.position.Minus(paddle.position) == Zero;
    assert rho * rho >= 0.0;
  }

  /**
   * The paddle test leaves the puck's working copy unchanged exactly when no
   * collision is detected; otherwise it plays one hit.
   */
  lemma PaddleCollisionChanges(f: Flight, ball: Sprite, paddle: Sprite, squaredRadii: real, respond: Response)
    ensures PaddleCollision(f, ball, paddle, squaredRadii, respond) == f
            <==> !Collides(f.next, ball.position, paddle, squaredRadii)
    ensures Collides(f.next, ball.position, paddle, squaredRadii) ==>
              PaddleCollision(f, ball, paddle, squaredRadii, respond).hits == f.hits + 1
  {
  }

  /**
   * On a table at least one puck wide, the side-wall tests clamp the puck's
   * next x into [r, width - r], reflect and scale the x-velocity only when
   * they clamp, play one hit exactly then, and leave y alone.
   */
  lemma SideWallsClamp(f: Flight, r: real, width: real)
    requires 2.0 * r <= width
    ensures var g := SideWalls(f, r, width);
            var inside := r <= f.next.x <= width - r;
            && g.next == f.next.(x := Clampf(f.next.x, r, width - r))
            && g.vector == (if inside then f.vector else f.vector.(x := Restitution * f.vector.x))
            && g.hits == (if inside then f.hits else f.hits + 1)
  {
  }

  /**
   * Outside the goal mouth, on a table at least one puck tall, the goal-line
   * tests clamp the puck's next y into [r, height - r] and reflect the
   * y-velocity only when they clamp; inside the goal mouth they change nothing.
   * The x components are never touched.
   */
  lemma GoalLinesClamp(f: Flight, r: real, height: real, inGoal: bool)
    requires 2.0 * r <= height
    ensures var g := GoalLines(f, r, height, inGoal);
            var inside := r <= f.next.y <= height - r;
            if inGoal then g == f
            else
              && g.next == f.next.(y := Clampf(f.next.y, r, height - r))
              && g.vector == (if inside then f.vector else f.vector.(y := Restitution * f.vector.y))
              && g.hits == (if inside then f.hits else f.hits + 1)
  {
  }

  /**
   * After a frame, both paddles stand at the next positions the input
   * handlers left them and keep every other field; the puck stands at its
   * stored next position.
   */
  lemma FrameCommits(w: World, t: Table, respond: Response)
    ensures var w' := Frame(w, t, respond);
            && w'.player1 == w.player1.(position := w.player1.nextPosition)
            && w'.player2 == w.player2.(position := w.player2.nextPosition)
            && w'.ball.position == w'.ball.nextPosition
            && w'.ball.radius == w.ball.radius && w'.ball.size == w.ball.size
            && w'.ball.touch == w.ball.touch
            && w.hits <= w'.hits
  {
  }

  /** Whatever the collision response, a frame leaves the puck between the side walls. */
  lemma FrameBetweenSideWalls(w: World, t: Table, respond: Response)
    requires 2.0 * w.ball.radius <= t.width
    ensures var w' := Frame(w, t, respond);
            w.ball.radius <= w'.ball.position.x <= t.width - w.ball.radius
  {
  }

  /**
   * Whatever the collision response, a frame leaves the puck between the
   * goal lines unless, at the second pass, the puck's committed x was inside
   * the goal mouth.
   */
  lemma FrameBetweenGoalLines(w: World, t: Table, respond: Response)
    requires 2.0 * w.ball.radius <= t.height
    ensures var mid := Passes(w, t, SquaredRadii(w), respond, 1).0;
            var w' := Frame(w, t, respond);
            || InsideGoalMouth(mid.ball.position.x, t.width, t.goalWidth)
            || w.ball.radius <= w'.ball.position.y <= t.height - w.ball.radius
  {
  }

  /**
   * With no collision in either pass and the damped step landing between
   * the walls (boundaries included), the puck keeps the damped vector and moves from its
   * previous next position (not its position) by that vector, without a hit.
   */
  lemma FrameFreeFlight(w: World, t: Table, respond: Response)
    requires var f := Launch(w);
             && w.ball.radius <= f.next.x <= t.width - w.ball.radius
             && w.ball.radius <= f.next.y <= t.height - w.ball.radius
             && !Collides(f.next, w.ball.position, w.player1, SquaredRadii(w))
             && !Collides(f.next, f.next, w.player2.(position := w.player2.nextPosition), SquaredRadii(w))
    ensures var w' := Frame(w, t, respond);
            && w'.ball.vector == w.ball.vector.Scale(Damping)
            && w'.ball.position == w.ball.nextPosition.Plus(w.ball.vector.Scale(Damping))
            && w'.hits == w.hits
  {
  }

  /**
   * The second pass repeats the wall and goal tests on a puck the first pass
   * already placed: when the second paddle does not collide and the first
   * pass left the puck between the goal lines on a table at least one puck
   * wide, the second pass changes nothing at all.
   */
  lemma SecondPassInert(w: World, t: Table, respond: Response)
    requires 2.0 * w.ball.radius <= t.width
    requires var mid := Passes(w, t, SquaredRadii(w), respond, 1);
             && w.ball.radius <= mid.0.ball.position.y <= t.height - w.ball.radius
             && !Collides(mid.1.next, mid.0.ball.position, mid.0.player2, SquaredRadii(w))
    ensures Frame(w, t, respond) == Passes(w, t, SquaredRadii(w), respond, 1).0
  {
  }
}
