/**
 * The game layer itself: the sprites are objects whose fields the touch
 * handlers and the frame update change in place, and each handler is proved
 * against the value-level specification in Input or Physics.
 */
module Game {
  import opened Wrappers
  import opened Geometry
  import opened Court
  import opened Input
  import opened Physics

  /** A paddle or the puck. */
  class GameSprite {
    var position: Vec2
    var nextPosition: Vec2
    var vector: Vec2
    var touch: Option<TouchId>
    const radius: real
    const size: Vec2

    /** A sprite placed at `position`, at rest, held by no touch. */
    constructor (position: Vec2, radius: real, size: Vec2)
      ensures State() == Sprite(position, position, Zero, None, radius, size)
    {
      this.position := position;
      this.nextPosition := position;
      this.vector := Zero;
      this.touch := None;
      this.radius := radius;
      this.size := size;
    }

    function State(): Sprite
      reads this
    {
      Sprite(position, nextPosition, vector, touch, radius, size)
    }
  }

  /** An entry of the players list: score, side and paddle. */
  datatype Player = Player(score: int, side: Side, sprite: GameSprite)

  class GameLayer {
    const screenSize: Vec2
    const goalWidth: real
    const player1: GameSprite
    const player2: GameSprite
    const ball: GameSprite
    var players: seq<Player>
    /** How many times the hit sound has been played. */
    var hits: nat

    /**
     * Three distinct sprites of positive radius; the players list holds the
     * first paddle on the South side and the second on the North side.
     */
    ghost predicate Valid()
      reads this
    {
      && player1 != player2 && ball != player1 && ball != player2
      && |players| == 2
      && players[0].sprite == player1 && players[0].side == South
      && players[1].sprite == player2 && players[1].side == North
      && player1.radius > 0.0 && player2.radius > 0.0 && ball.radius > 0.0
    }

    function Table(): Table
    {
      Physics.Table(screenSize.x, screenSize.y, goalWidth)
    }

    function World(): World
      reads this, ball, player1, player2
    {
      Physics.World(ball.State(), player1.State(), player2.State(), hits)
    }

    /**
     * The layer as the scene sets it up: the puck two puck radii below the
     * centre, the first paddle one paddle diameter above the bottom edge and
     * the second one below the top edge, both scores zero.
     */
    constructor (screenSize: Vec2, goalWidth: real, paddleRadius: real, paddleSize: Vec2,
                 ballRadius: real, ballSize: Vec2)
      requires paddleRadius > 0.0 && ballRadius > 0.0
      ensures Valid() && fresh(player1) && fresh(player2) && fresh(ball)
      ensures this.screenSize == screenSize && this.goalWidth == goalWidth && hits == 0
      ensures players[0].score == 0 && players[1].score == 0
      ensures var center := screenSize.Scale(0.5);
              && ball.State() == Sprite(Vec2(center.x, center.y - ballRadius * 2.0),
                                        Vec2(center.x, center.y - ballRadius * 2.0), Zero, None, ballRadius, ballSize)
              && player1.State() == Sprite(Vec2(center.x, paddleRadius * 2.0),
                                           Vec2(center.x, paddleRadius * 2.0), Zero, None, paddleRadius, paddleSize)
              && player2.State() == Sprite(Vec2(center.x, screenSize.y - paddleRadius * 2.0),
                                           Vec2(center.x, screenSize.y - paddleRadius * 2.0), Zero, None,
                                           paddleRadius, paddleSize)
    {
      var center := screenSize.Scale(0.5);
      var paddleDiam := paddleRadius * 2.0;
      this.screenSize := screenSize;
      this.goalWidth := goalWidth;
      var p1 := new GameSprite(Vec2(center.x, paddleDiam), paddleRadius, paddleSize);
      var p2 := new GameSprite(Vec2(center.x, screenSize.y - paddleDiam), paddleRadius, paddleSize);
      player1 := p1;
      player2 := p2;
      ball := new GameSprite(Vec2(center.x, center.y - ballRadius * 2.0), ballRadius, ballSize);
      players := [Player(0, South, p1), Player(0, North, p2)];
      hits := 0;
    }

    // ------------------------------------------------------------ touch handlers

    /** Every paddle whose bounding box contains a tap takes that touch. */
    method OnTouchesBegan(touches: seq<Option<Touch>>)
      requires Valid()
      modifies player1, player2
      ensures player1.State() == TouchesBegan(old(player1.State()), touches)
      ensures player2.State() == TouchesBegan(old(player2.State()), touches)
      ensures player1.State() == old(player1.State()).(touch := player1.touch)
      ensures player2.State() == old(player2.State()).(touch := player2.touch)
    {
      for i := 0 to |touches|
        invariant player1.State() == TouchesBegan(old(player1.State()), touches[..i])
        invariant player2.State() == TouchesBegan(old(player2.State()), touches[..i])
      {
        assert touches[..i + 1][..i] == touches[..i];
        if touches[i].Some? {
          var touch := touches[i].value;
          var tap := touch.location;
          ghost var s1, s2 := player1.State(), player2.State();
          for j := 0 to |players|
            invariant player1.State() == if j > 0 then TouchBegan(s1, touches[i]) else s1
            invariant player2.State() == if j > 1 then TouchBegan(s2, touches[i]) else s2
          {
            var p := players[j].sprite;
            if BoundingBox(p.State()).ContainsPoint(tap) {
              p.touch := Some(touch.id);
            }
          }
        }
      }
      assert touches[..|touches|] == touches;
      TouchesBeganKeepsBody(old(player1.State()), touches);
      TouchesBeganKeepsBody(old(player2.State()), touches);
    }

    /**
     * Every paddle held by a moving touch gets, as next position, the tap
     * clamped into its own half-court, and, as vector, the raw drag from its
     * position.
     */
    method OnTouchesMoved(touches: seq<Touch>)
      requires Valid()
      modifies player1, player2
      ensures player1.State() == TouchesMoved(old(player1.State()), South, screenSize, touches)
      ensures player2.State() == TouchesMoved(old(player2.State()), North, screenSize, touches)
      ensures player1.position == old(player1.position) && player1.touch == old(player1.touch)
      ensures player2.position == old(player2.position) && player2.touch == old(player2.touch)
    {
      for i := 0 to |touches|
        invariant player1.State() == TouchesMoved(old(player1.State()), South, screenSize, touches[..i])
        invariant player2.State() == TouchesMoved(old(player2.State()), North, screenSize, touches[..i])
      {
        assert touches[..i + 1][..i] == touches[..i];
        var touch := touches[i];
        var tap := touch.location;
        ghost var s1, s2 := player1.State(), player2.State();
        for j := 0 to |players|
          invariant player1.State() == if j > 0 then TouchMoved(s1, South, screenSize, touch) else s1
          invariant player2.State() == if j > 1 then TouchMoved(s2, North, screenSize, touch) else s2
        {
          var player := players[j];
          var p := player.sprite;
          if p.touch != Some(touch.id) {
            continue;
          }
          p.nextPosition := ClampToCourt(player.side, screenSize, p.radius, tap);
          p.vector := tap.Minus(p.position);
        }
      }
      assert touches[..|touches|] == touches;
      TouchesMovedKeepsBody(old(player1.State()), South, screenSize, touches);
      TouchesMovedKeepsBody(old(player2.State()), North, screenSize, touches);
    }

    /** Shared body of the touch-ended and touch-cancelled handlers. */
    method ReleaseTouches(touches: seq<Touch>)
      requires Valid()
      modifies player1, player2
      ensures player1.State() == TouchesReleased(old(player1.State()), touches)
      ensures player2.State() == TouchesReleased(old(player2.State()), touches)
    {
      for i := 0 to |touches|
        invariant player1.State() == TouchesReleased(old(player1.State()), touches[..i])
        invariant player2.State() == TouchesReleased(old(player2.State()), touches[..i])
      {
        assert touches[..i + 1][..i] == touches[..i];
        var touch := touches[i];
        ghost var s1, s2 := player1.State(), player2.State();
        for j := 0 to |players|
          invariant player1.State() == if j > 0 then TouchReleased(s1, touch) else s1
          invariant player2.State() == if j > 1 then TouchReleased(s2, touch) else s2
        {
          var p := players[j].sprite;
          if p.touch != None && p.touch == Some(touch.id) {
            p.touch := None;
            p.vector := Zero;
          }
        }
      }
      assert touches[..|touches|] == touches;
    }

    /** A paddle held by an ended touch is let go and stops. */
    method OnTouchesEnded(touches: seq<Touch>)
      requires Valid()
      modifies player1, player2
      ensures player1.State() == TouchesReleased(old(player1.State()), touches)
      ensures player2.State() == TouchesReleased(old(player2.State()), touches)
    {
      ReleaseTouches(touches);
    }

    /** A paddle held by a cancelled touch is let go and stops. */
    method OnTouchesCancelled(touches: seq<Touch>)
      requires Valid()
      modifies player1, player2
      ensures player1.State() == TouchesReleased(old(player1.State()), touches)
      ensures player2.State() == TouchesReleased(old(player2.State()), touches)
    {
      ReleaseTouches(touches);
    }

    // ------------------------------------------------------------ frame update

    /** Whether the puck's current x lies in the goal mouth. */
    function IsBallInsideGoal(): (b: bool)
      reads ball
      ensures b <==> (screenSize.x - goalWidth) * 0.5 <= ball.position.x <= (screenSize.x + goalWidth) * 0.5
    {
      InsideGoalMouth(ball.position.x, screenSize.x, goalWidth)
    }

    /** The hit sound, counted. */
    method PlayHit()
      modifies this`hits
      ensures hits == old(hits) + 1
    {
      hits := hits + 1;
    }

    /** Scoring is an empty stub: no score and no body changes. */
    method PlayerScore(side: Side)
      ensures unchanged(this, ball, player1, player2)
    {
    }

    /**
     * The paddle test of one pass: on a collision with `p` the puck's vector
     * and next position are those of the collision response, and a hit plays.
     */
    method CollideWith(p: GameSprite, squaredRadii: real, respond: Response,
                       ballVector: Vec2, ballNextPosition: Vec2) returns (vector: Vec2, next: Vec2)
      modifies this`hits
      ensures Flight(vector, next, hits) ==
              PaddleCollision(Flight(ballVector, ballNextPosition, old(hits)), ball.State(), p.State(), squaredRadii, respond)
    {
      vector, next := ballVector, ballNextPosition;
      var playerNextPosition := p.nextPosition;
      var playerVector := p.vector;

      var deltaBallNextPlayer := next.Minus(p.position);
      var d1 := deltaBallNextPlayer.LengthSquared();
      var deltaBallPlayerNext := ball.position.Minus(playerNextPosition);
      var d2 := deltaBallPlayerNext.LengthSquared();

      if d1 <= squaredRadii || d2 <= squaredRadii {
        var answer := respond(vector, playerVector, deltaBallNextPlayer,
                              playerNextPosition, p.radius + ball.radius);
        vector := answer.0;
        next := answer.1;
        PlayHit();
      }
    }

    /** The side-wall tests of one pass: clamp into the table's width and bounce. */
    method BounceOffSideWalls(ballVector: Vec2, ballNextPosition: Vec2) returns (vector: Vec2, next: Vec2)
      modifies this`hits
      ensures Flight(vector, next, hits) ==
              SideWalls(Flight(ballVector, ballNextPosition, old(hits)), ball.radius, screenSize.x)
    {
      vector, next := ballVector, ballNextPosition;
      if next.x < ball.radius {
        next := next.(x := ball.radius);
        vector := vector.(x := vector.x * Restitution);
        PlayHit();
      }

      if next.x > screenSize.x - ball.radius {
        next := next.(x := screenSize.x - ball.radius);
        vector := vector.(x := vector.x * Restitution);
        PlayHit();
      }
    }

    /**
     * The top and bottom tests of one pass: clamp and bounce unless the puck
     * is inside the goal mouth.
     */
    method BounceOffGoalLines(ballVector: Vec2, ballNextPosition: Vec2) returns (vector: Vec2, next: Vec2)
      modifies this`hits
      ensures Flight(vector, next, hits) ==
              GoalLines(Flight(ballVector, ballNextPosition, old(hits)), ball.radius, screenSize.y, IsBallInsideGoal())
    {
      vector, next := ballVector, ballNextPosition;
      if next.y > screenSize.y - ball.radius {
        if !IsBallInsideGoal() {
          next := next.(y := screenSize.y - ball.radius);
          vector := vector.(y := vector.y * Restitution);
          PlayHit();
        }
      }

      if next.y < ball.radius {
        if !IsBallInsideGoal() {
          next := next.(y := ball.radius);
          vector := vector.(y := vector.y * Restitution);
          PlayHit();
        }
      }
    }

    /**
     * The end of one pass: store the puck's vector and next position, run the
     * (empty) score tests, and move every sprite to its next position.
     */
    method Commit(ballVector: Vec2, ballNextPosition: Vec2)
      requires Valid()
      modifies ball, player1, player2
      ensures ball.State() == old(ball.State()).(vector := ballVector, nextPosition := ballNextPosition,
                                                  position := ballNextPosition)
      ensures player1.State() == old(player1.State()).(position := old(player1.nextPosition))
      ensures player2.State() == old(player2.State()).(position := old(player2.nextPosition))
    {
      ball.vector := ballVector;
      ball.nextPosition := ballNextPosition;

      if ballNextPosition.y < -ball.radius * 2.0 {
        PlayerScore(South);
      }
      if ballNextPosition.y > screenSize.y + ball.radius * 2.0 {
        PlayerScore(North);
      }

      player1.position := player1.nextPosition;
      player2.position := player2.nextPosition;
      ball.position := ball.nextPosition;
    }

    /**
     * One frame: the state afterwards is the Frame of the state before, for
     * the given collision response; the players list and so the scores are
     * untouched.
     */
    method Update(respond: Response)
      requires Valid()
      modifies this`hits, ball, player1, player2
      ensures Valid() && players == old(players)
      ensures World() == Frame(old(World()), Table(), respond)
      ensures player1.State() == old(player1.State()).(position := old(player1.nextPosition))
      ensures player2.State() == old(player2.State()).(position := old(player2.nextPosition))
      ensures ball.position == ball.nextPosition
      ensures 2.0 * ball.radius <= screenSize.x ==>
                ball.radius <= ball.position.x <= screenSize.x - ball.radius
    {
      var ballVector := ball.vector.Scale(Damping);
      var ballNextPosition := ball.nextPosition.Plus(ballVector);
      var squaredRadii := Square(player1.radius + ball.radius);
      assert squaredRadii == SquaredRadii(old(World()));
      for i := 0 to |players|
        invariant Passes(old(World()), Table(), squaredRadii, respond, i) ==
                  (World(), Flight(ballVector, ballNextPosition, hits))
      {
        var p := players[i].sprite;
        ballVector, ballNextPosition := CollideWith(p, squaredRadii, respond, ballVector, ballNextPosition);
        ballVector, ballNextPosition := BounceOffSideWalls(ballVector, ballNextPosition);
        ballVector, ballNextPosition := BounceOffGoalLines(ballVector, ballNextPosition);
        Commit(ballVector, ballNextPosition);
      }
      FrameCommits(old(World()), Table(), respond);
      if 2.0 * ball.radius <= screenSize.x {
        FrameBetweenSideWalls(old(World()), Table(), respond);
      }
    }
  }
}

