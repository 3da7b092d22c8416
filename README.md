# Air-hockey game layer, modelled in Dafny

This project models the rule engine of a two-player air-hockey scene
(`GameLayer` of the cocos2d-x "airhockey" sample). There are two paddles
(mallets), South and North, and one puck, all circular sprites. Each sprite has
a position, a staged next position, a velocity ("vector") and, for a paddle, the
touch that holds it. The model covers:

- the four touch handlers: began, moved, ended and cancelled. A touch that
  begins inside a paddle's bounding box takes that paddle. A moving touch sends
  the paddle it holds to the tap, clamped into that paddle's half-court, and
  sets the paddle's vector to the raw drag. Releasing the touch drops the
  paddle and stops it.
- the goal-mouth test on the puck's x.
- the per-frame `update`. It damps the puck's vector by 0.98 and adds it to the
  puck's previous next position. Then, once per paddle in the players list, it
  runs the collision test (squared distances against the squared sum of radii),
  the side walls (clamp and bounce by -0.8), the top and bottom lines (the same,
  but not inside the goal mouth), the empty score tests and the commit of every
  next position. As in the source, the wall, goal and commit code runs inside
  the per-paddle loop, so it runs twice per frame.

Coordinates are Dafny `real`s.

Layout:

- `geometry.dfy`: `Vec2`, the engine's clamp and axis-aligned rectangle.
- `court.dfy`: sides, the half-court clamp and the goal mouth.
- `input.dfy`: the handlers' effect on one paddle, stated as a fold over the
  event's touches, with lemmas that characterise each fold.
- `physics.dfy`: one frame as a function on a `World` value, with lemmas.
- `game.dfy`: the classes `GameSprite` and `GameLayer`. Their methods change
  the sprites in place with the source's loops. Each method is proved equal to
  the specification in `input.dfy` or `physics.dfy`.

The model follows the code as written, even where it departs from its evident
intent: `playerScore` is empty, so no score ever changes and the puck is never reset.
The doubled wall, goal and commit code is kept as written.

## Model

| member | source | states |
|---|---|---|
| `Geometry.Clampf` | airhockey/Classes/GameLayer.cpp:171-175 | the scalar clamp swaps reversed bounds, so the result always lies between the two bounds; it returns the value itself when the value is already between them, and otherwise returns one of the bounds |
| `Geometry.ClampfNearest` | airhockey/Classes/GameLayer.cpp:171-175 | on a non-empty interval the clamp is no further from the value than any point of the interval |
| `Geometry.ClampPoint` | airhockey/Classes/GameLayer.cpp:171-175 | the per-axis clamp of a point lies in the box when the box is non-empty, and leaves a point already in the box unchanged |
| `Geometry.Vec2.LengthSquared` | airhockey/Classes/GameLayer.cpp:231-234 | the squared distances used by the collision test are never negative |
| `Court.ClampToCourt` | airhockey/Classes/GameLayer.cpp:160-177 | a North paddle is sent into x in [r, W-r], y in [H/2+r, H-r], and a South paddle into x in [r, W-r], y in [r, H/2-r], when both ranges are non-empty; a tap already inside its range is kept as it is |
| `Court.ClampToCourtNearest` | airhockey/Classes/GameLayer.cpp:160-177 | on each axis the clamped tap is no further from the tap than any legal position |
| `Court.InsideGoalMouth` | airhockey/Classes/GameLayer.cpp:301-309 | true exactly when the puck's x is within G/2 of the table's centre line, which is x in [(W-G)/2, (W+G)/2] with both ends included |
| `Court.InsideGoalMouthMirror` | airhockey/Classes/GameLayer.cpp:301-309 | the goal-mouth test gives the same answer for x and for W-x |
| `Input.TouchBegan` | airhockey/Classes/GameLayer.cpp:138-145 | no contract of its own: one (touch, paddle) step of touch began; characterised through its fold by TouchesBeganKeepsBody, TouchesBeganMissed and TouchesBeganLastHit |
| `Input.TouchesBegan` | airhockey/Classes/GameLayer.cpp:133-147 | no contract of its own: the touch-began handler on one paddle as a fold over the event's touches; characterised by TouchesBeganKeepsBody, TouchesBeganMissed and TouchesBeganLastHit |
| `Input.TouchMoved` | airhockey/Classes/GameLayer.cpp:155-179 | no contract of its own: one (touch, paddle) step of touch moved; characterised through its fold by TouchesMovedKeepsBody, TouchesMovedUnowned and TouchesMovedLastOwned |
| `Input.TouchesMoved` | airhockey/Classes/GameLayer.cpp:152-181 | no contract of its own: the touch-moved handler on one paddle as a fold over the event's touches; characterised by TouchesMovedKeepsBody, TouchesMovedUnowned, TouchesMovedLastOwned and TouchesMovedStaysInCourt |
| `Input.TouchReleased` | airhockey/Classes/GameLayer.cpp:188-196 | no contract of its own: one (touch, paddle) step of touch ended or cancelled; characterised through its fold by TouchesReleasedExactly |
| `Input.TouchesReleased` | airhockey/Classes/GameLayer.cpp:186-197 | no contract of its own: the touch-ended (and cancelled) handler on one paddle as a fold over the event's touches; characterised by TouchesReleasedExactly and TouchesReleasedIdempotent |
| `Input.TouchesBeganKeepsBody` | airhockey/Classes/GameLayer.cpp:137-145 | touch began changes nothing of a paddle but its touch |
| `Input.TouchesBeganMissed` | airhockey/Classes/GameLayer.cpp:137-145 | a paddle whose bounding box contains none of the taps (null touches never hit) keeps its old touch |
| `Input.TouchesBeganLastHit` | airhockey/Classes/GameLayer.cpp:133-145 | a paddle whose box contains a tap takes the last such touch of the event, overwriting whatever touch it held |
| `Input.TouchesMovedKeepsBody` | airhockey/Classes/GameLayer.cpp:154-179 | touch moved changes only a paddle's next position and vector, never its position or touch |
| `Input.TouchesMovedUnowned` | airhockey/Classes/GameLayer.cpp:155-158 | a paddle held by none of the moving touches is left exactly as it was |
| `Input.TouchesMovedLastOwned` | airhockey/Classes/GameLayer.cpp:154-179 | a paddle held by a moving touch gets, from the last such touch, the clamped tap as its next position and the raw tap minus its position as its vector |
| `Input.TouchesMovedStaysInCourt` | airhockey/Classes/GameLayer.cpp:160-178 | a paddle whose next position is in its half-court is still in it after any touch-moved event |
| `Input.TouchesReleasedExactly` | airhockey/Classes/GameLayer.cpp:186-197 | a paddle held by one of the ended touches gets no touch and a zero vector; every other paddle is left exactly as it was |
| `Input.TouchesReleasedIdempotent` | airhockey/Classes/GameLayer.cpp:202-213 | delivering the same end or cancel event twice has the same effect as delivering it once |
| `Physics.Launch` | airhockey/Classes/GameLayer.cpp:218-219 | no contract of its own: the damped vector 0.98·v added to the previous next position; characterised by FrameFreeFlight |
| `Physics.SquaredRadii` | airhockey/Classes/GameLayer.cpp:224 | no contract of its own: the square of the first paddle's radius plus the puck's, used for both paddles |
| `Physics.Collides` | airhockey/Classes/GameLayer.cpp:231-236 | no contract of its own: the two squared-distance tests; characterised by CollidesNear, CollidesAtCentre and PaddleCollisionChanges |
| `Physics.CollidesNear` | airhockey/Classes/GameLayer.cpp:231-236 | with the squared radii rho², a detected collision puts one of the two tested offsets within rho on both axes |
| `Physics.CollidesAtCentre` | airhockey/Classes/GameLayer.cpp:231-236 | a puck whose next position is the paddle's centre always collides |
| `Physics.PaddleCollision` | airhockey/Classes/GameLayer.cpp:236-247 | no contract of its own: on a collision the response replaces the puck's vector and next position and a hit plays; characterised by PaddleCollisionChanges |
| `Physics.PaddleCollisionChanges` | airhockey/Classes/GameLayer.cpp:236-247 | the paddle test leaves the puck's working copy unchanged exactly when no collision is detected, and a collision plays exactly one hit |
| `Physics.LeftWall` | airhockey/Classes/GameLayer.cpp:249-253 | the next x ends at least r, y and the y-velocity are untouched, and at most one hit plays |
| `Physics.RightWall` | airhockey/Classes/GameLayer.cpp:255-260 | the next x ends at most W-r, y and the y-velocity are untouched, and at most one hit plays |
| `Physics.SideWalls` | airhockey/Classes/GameLayer.cpp:249-260 | on a table at least one puck wide the next x ends in [r, W-r]; y and the y-velocity are untouched |
| `Physics.TopLine` | airhockey/Classes/GameLayer.cpp:262-270 | outside the goal mouth the next y ends at most H-r; inside it nothing changes; x is untouched |
| `Physics.BottomLine` | airhockey/Classes/GameLayer.cpp:272-280 | outside the goal mouth the next y ends at least r; inside it nothing changes; x is untouched |
| `Physics.GoalLines` | airhockey/Classes/GameLayer.cpp:262-280 | inside the goal mouth nothing changes; outside it, with H >= 2r, the next y ends in [r, H-r]; x is untouched |
| `Physics.Pass` | airhockey/Classes/GameLayer.cpp:225-298 | one pass of the per-player loop: the puck's vector and next position are stored, every sprite stands at its next position, paddles keep every other field, and the puck's x is in [r, W-r] when W >= 2r |
| `Physics.Passes` | airhockey/Classes/GameLayer.cpp:218-298 | no contract of its own: the damped launch followed by the first i passes; characterised through Frame |
| `Physics.Frame` | airhockey/Classes/GameLayer.cpp:216-299 | no contract of its own: one whole update; characterised by FrameCommits, FrameBetweenSideWalls, FrameBetweenGoalLines, FrameFreeFlight and SecondPassInert |
| `Physics.SideWallsClamp` | airhockey/Classes/GameLayer.cpp:249-260 | when W >= 2r the side-wall tests clamp the puck's next x into [r, W-r]. They multiply the x-velocity by -0.8 and play one hit only when they clamp, and they never touch y or the y-velocity |
| `Physics.GoalLinesClamp` | airhockey/Classes/GameLayer.cpp:262-280 | outside the goal mouth, with H >= 2r, the tests clamp the next y into [r, H-r] and multiply the y-velocity by -0.8 only when they clamp. Inside the goal mouth they change nothing. They never touch x |
| `Physics.FrameCommits` | airhockey/Classes/GameLayer.cpp:282-297 | after a frame both paddles stand at their next positions with every other field unchanged, and the puck stands at its stored next position |
| `Physics.FrameBetweenSideWalls` | airhockey/Classes/GameLayer.cpp:225-298 | whatever the collision response, a frame leaves the puck's x in [r, W-r] when W >= 2r |
| `Physics.FrameBetweenGoalLines` | airhockey/Classes/GameLayer.cpp:225-298 | whatever the collision response, a frame leaves the puck's y in [r, H-r] when H >= 2r, unless the puck was inside the goal mouth at the second pass |
| `Physics.FrameFreeFlight` | airhockey/Classes/GameLayer.cpp:218-236 | with no collision and no wall, the puck keeps the damped vector 0.98·v and moves from its previous next position by it, with no hit |
| `Physics.SecondPassInert` | airhockey/Classes/GameLayer.cpp:225-298 | the second pass changes nothing when the second paddle does not collide and the first pass left the puck between the lines |
| `Game.GameLayer.constructor` | airhockey/Classes/GameLayer.cpp:48-101 | players list [South: first paddle, North: second paddle] with zero scores; the puck two of its radii below the centre; each paddle, of the given radius and size, one of its own diameters from the bottom (first) or top (second) edge; every sprite at rest, with next position equal to position and no touch |
| `Game.GameLayer.OnTouchesBegan` | airhockey/Classes/GameLayer.cpp:131-148 | each paddle ends as the touch-began fold over the event's touches, with only its touch changed |
| `Game.GameLayer.OnTouchesMoved` | airhockey/Classes/GameLayer.cpp:150-182 | each paddle ends as the touch-moved fold for its side (first paddle South, second North), with its position and touch unchanged |
| `Game.GameLayer.ReleaseTouches` | airhockey/Classes/GameLayer.cpp:186-197 | each paddle ends as the release fold over the event's touches |
| `Game.GameLayer.OnTouchesEnded` | airhockey/Classes/GameLayer.cpp:184-198 | each paddle ends as the release fold over the ended touches |
| `Game.GameLayer.OnTouchesCancelled` | airhockey/Classes/GameLayer.cpp:200-214 | each paddle ends as the release fold over the cancelled touches |
| `Game.GameLayer.IsBallInsideGoal` | airhockey/Classes/GameLayer.cpp:301-309 | true exactly when the puck's current x is in [(W-G)/2, (W+G)/2], both ends included |
| `Game.GameLayer.PlayHit` | airhockey/Classes/GameLayer.cpp:311-314 | one more hit sound is counted |
| `Game.GameLayer.PlayerScore` | airhockey/Classes/GameLayer.cpp:316-319 | nothing changes |
| `Game.GameLayer.CollideWith` | airhockey/Classes/GameLayer.cpp:228-247 | on a detected collision the puck's vector and next position become the collision response and a hit plays; otherwise nothing changes |
| `Game.GameLayer.BounceOffSideWalls` | airhockey/Classes/GameLayer.cpp:249-260 | the puck's working vector and next position are the side-wall function of their old values |
| `Game.GameLayer.BounceOffGoalLines` | airhockey/Classes/GameLayer.cpp:262-280 | the puck's working vector and next position are the goal-line function of their old values, for the goal-mouth test on the committed position |
| `Game.GameLayer.Commit` | airhockey/Classes/GameLayer.cpp:282-297 | stores the puck's vector and next position and moves all three sprites to their next positions |
| `Game.GameLayer.Update` | airhockey/Classes/GameLayer.cpp:216-299 | the new state is the frame function of the old one. Scores are unchanged, paddles stand at their old next positions, and the puck stands at its next position with x in [r, W-r] when W >= 2r |

## Left out

- Scene setup is not modelled: `init`'s sprite and label creation, `setupScoreLabels`, `setupDebugShapes` and `setupTouchHandlers`. It is engine scene-graph and listener plumbing. The constructor keeps only the initial positions and the players list.
- Audio: `playHit` is modelled as a counter of hit sounds, not as a call into the audio engine.
- Collision response: the force and angle computation (`sqrt`, `pow`, `atan2`, `cos`, `sin`) is floating-point trigonometry. It is the parameter `respond` of `Update` and `Frame`, so every property is proved for any response.
- `Vec2::getClampPoint` and `clampf` are engine code, not part of this model. They are modelled as the engine's `clampf` behaves: reversed bounds are swapped first, then `v < lo ? lo : (v < hi ? v : hi)` per axis.
- `getBoundingBox().containsPoint` is engine code, not part of this model. It is modelled as the sprite's size centred on its position (a centre anchor, no rotation or scale), inclusive on every edge.
- `GameSprite::radius` and the rest of `GameSprite` are not part of this model. A radius is a given positive real, and a new sprite's next position is its position.
- `GameLayer.h` is not part of this model, so `GOAL_WIDTH` is the layer's constant `goalWidth`.
- Numbers: float rounding is not modelled, and -0.8f and 0.98 are exact reals. `dt` is unused by the source and omitted.
- Null touches: only the touch-began handler tests for them, and the model gives it optional touches. In touch moved a null touch would be dereferenced; in ended and cancelled it never matches a paddle. Those handlers take non-null touches.
- Scoring: `playerScore` is empty, so the model changes no score and never resets the puck.
