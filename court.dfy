/**
 * The pure geometry of the table: the half-court each paddle is confined to
 * and the goal mouth centred on the top and bottom edges.
 */
module Court {
  import opened Geometry

  datatype Side = North | South

  /** The legal positions of a paddle centre of radius `r` on `side`, written out. */
  predicate InCourt(side: Side, screen: Vec2, r: real, q: Vec2)
  {
    r <= q.x <= screen.x - r &&
    match side
    case North => screen.y / 2.0 + r <= q.y <= screen.y - r
    case South => r <= q.y <= screen.y / 2.0 - r
  }

  /** Both half-courts hold at least one point. */
  predicate CourtsNonEmpty(screen: Vec2, r: real)
  {
    2.0 * r <= screen.x && 4.0 * r <= screen.y
  }

  /**
   * The clamp of a touch location into the paddle's half of the court, built
   * from the same corners as the touch-move handler.
   */
  function ClampToCourt(side: Side, screen: Vec2, r: real, tap: Vec2): (q: Vec2)
    ensures CourtsNonEmpty(screen, r) ==> InCourt(side, screen, r, q)
    ensures InCourt(side, screen, r, tap) ==> q == tap
  {
    var halfWayLine := screen.y * 0.5;
    var courtMargin := Vec2(r, r);
    var courtTopRight := screen.Minus(courtMargin);
    var northCourtBottomLeft := Vec2(r, halfWayLine + r);
    var southCourtTopRight := Vec2(screen.x - r, halfWayLine - r);
    match side
    case North => ClampPoint(tap, northCourtBottomLeft, courtTopRight)
    case South => ClampPoint(tap, courtMargin, southCourtTopRight)
  }

  /** The clamp moves the tap no further, on either axis, than any legal position would. */
  lemma ClampToCourtNearest(side: Side, screen: Vec2, r: real, tap: Vec2, z: Vec2)
    requires InCourt(side, screen, r, z)
    ensures var q := ClampToCourt(side, screen, r, tap);
            Abs(q.x - tap.x) <= Abs(z.x - tap.x) && Abs(q.y - tap.y) <= Abs(z.y - tap.y)
  {
  }

  /** Whether the puck's x lies in the goal mouth of width `goalWidth` centred on the table. */
  function InsideGoalMouth(x: real, width: real, goalWidth: real): (b: bool)
    ensures b <==> Abs(x - width / 2.0) <= goalWidth / 2.0
  {
    if x < (width - goalWidth) * 0.5 || x > (width + goalWidth) * 0.5 then false
    else true
  }

  /** The goal mouth is symmetric about the table's vertical centre line. */
  lemma InsideGoalMouthMirror(x: real, width: real, goalWidth: real)
    ensures InsideGoalMouth(x, width, goalWidth) <==> InsideGoalMouth(width - x, width, goalWidth)
  {
  }
}
