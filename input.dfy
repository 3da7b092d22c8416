/**
 * What the four touch handlers of the game layer do to one paddle, stated on
 * sprite values. The handlers walk the touches of an event in order and, for
 * each, every paddle; a paddle's effect depends only on its own fields, so
 * each handler is specified per paddle as a fold over the event's touches.
 */
module Input {
  import opened Wrappers
  import opened Geometry
  import opened Court

  /** The identity of an engine touch object (the source compares pointers). */
  type TouchId = nat

  datatype Touch = Touch(id: TouchId, location: Vec2)

  /**
   * The fields of one game sprite (paddle or puck). `radius` and `size` are
   * fixed by the sprite's image.
   */
  datatype Sprite = Sprite(
    position: Vec2,
    nextPosition: Vec2,
    vector: Vec2,
    touch: Option<TouchId>,
    radius: real,
    size: Vec2)

  /** The sprite's bounding box: its image centred on its position. */
  function BoundingBox(s: Sprite): Rect
  {
    Rect(s.position.Minus(s.size.Scale(0.5)), s.size)
  }

  /** A non-null touch whose location lies in the sprite's bounding box. */
  predicate Hits(s: Sprite, t: Option<Touch>)
  {
    t.Some? && BoundingBox(s).ContainsPoint(t.value.location)
  }

  /** The paddle is held by this touch. */
  predicate Owns(s: Sprite, t: Touch)
  {
    s.touch == Some(t.id)
  }

  // ---------------------------------------------------------------- began

  /** One (touch, paddle) step of the touch-began handler. */
  function TouchBegan(s: Sprite, t: Option<Touch>): Sprite
  {
    if Hits(s, t) then s.(touch := Some(t.value.id)) else s
  }

  /** The touch-began handler, on one paddle, over all touches of the event. */
  function TouchesBegan(s: Sprite, ts: seq<Option<Touch>>): Sprite
    decreases |ts|
  {
    if ts == [] then s else TouchBegan(TouchesBegan(s, ts[..|ts| - 1]), ts[|ts| - 1])
  }

  /** Touch began changes nothing but the paddle's touch. */
  lemma {:induction false} TouchesBeganKeepsBody(s: Sprite, ts: seq<Option<Touch>>)
    ensures TouchesBegan(s, ts) == s.(touch := TouchesBegan(s, ts).touch)
    decreases |ts|
  {
    if ts != [] {
      TouchesBeganKeepsBody(s, ts[..|ts| - 1]);
    }
  }

  /** A paddle whose box contains none of the taps keeps its old touch. */
  lemma {:induction false} TouchesBeganMissed(s: Sprite, ts: seq<Option<Touch>>)
    requires forall k :: 0 <= k < |ts| ==> !Hits(s, ts[k])
    ensures TouchesBegan(s, ts) == s
    decreases |ts|
  {
    if ts != [] {
      TouchesBeganMissed(s, ts[..|ts| - 1]);
    }
  }

  /**
   * A paddle whose box contains a tap is given the last such touch of the
   * event, whatever touch it held before.
   */
  lemma {:induction false} TouchesBeganLastHit(s: Sprite, ts: seq<Option<Touch>>, k: nat)
    requires k < |ts| && Hits(s, ts[k])
    requires forall j :: k < j < |ts| ==> !Hits(s, ts[j])
    ensures TouchesBegan(s, ts) == s.(touch := Some(ts[k].value.id))
    decreases |ts|
  {
    var prefix := ts[..|ts| - 1];
    TouchesBeganKeepsBody(s, prefix);
    if k < |ts| - 1 {
      TouchesBeganLastHit(s, prefix, k);
    }
  }

  // ---------------------------------------------------------------- moved

  /**
   * One (touch, paddle) step of the touch-moved handler: a paddle held by the
   * touch is sent towards the tap, clamped into its half-court, and its vector
   * becomes the raw drag from its current position.
   */
  function TouchMoved(s: Sprite, side: Side, screen: Vec2, t: Touch): Sprite
  {
    if !Owns(s, t) then s
    else s.(nextPosition := ClampToCourt(side, screen, s.radius, t.location),
            vector := t.location.Minus(s.position))
  }

  /** The touch-moved handler, on one paddle, over all touches of the event. */
  function TouchesMoved(s: Sprite, side: Side, screen: Vec2, ts: seq<Touch>): Sprite
    decreases |ts|
  {
    if ts == [] then s
    else TouchMoved(TouchesMoved(s, side, screen, ts[..|ts| - 1]), side, screen, ts[|ts| - 1])
  }

  /** Touch moved changes nothing but the paddle's next position and vector. */
  lemma {:induction false} TouchesMovedKeepsBody(s: Sprite, side: Side, screen: Vec2, ts: seq<Touch>)
    ensures var r := TouchesMoved(s, side, screen, ts);
            r == s.(nextPosition := r.nextPosition, vector := r.vector)
    decreases |ts|
  {
    if ts != [] {
      TouchesMovedKeepsBody(s, side, screen, ts[..|ts| - 1]);
    }
  }

  /** A paddle that no moving touch holds is left exactly as it was. */
  lemma {:induction false} TouchesMovedUnowned(s: Sprite, side: Side, screen: Vec2, ts: seq<Touch>)
    requires forall k :: 0 <= k < |ts| ==> !Owns(s, ts[k])
    ensures TouchesMoved(s, side, screen, ts) == s
    decreases |ts|
  {
    if ts != [] {
      TouchesMovedUnowned(s, side, screen, ts[..|ts| - 1]);
    }
  }

  /**
   * A paddle held by a moving touch ends at the clamped location of the last
   * such touch, with the unclamped drag from its position as its vector.
   */
  lemma {:induction false} TouchesMovedLastOwned(s: Sprite, side: Side, screen: Vec2, ts: seq<Touch>, k: nat)
    requires k < |ts| && Owns(s, ts[k])
    requires forall j :: k < j < |ts| ==> !Owns(s, ts[j])
    ensures TouchesMoved(s, side, screen, ts) ==
            s.(nextPosition := ClampToCourt(side, screen, s.radius, ts[k].location),
               vector := ts[k].location.Minus(s.position))
    decreases |ts|
  {
    var prefix := ts[..|ts| - 1];
    TouchesMovedKeepsBody(s, side, screen, prefix);
    if k < |ts| - 1 {
      TouchesMovedLastOwned(s, side, screen, prefix, k);
    }
  }

  /** A paddle that starts inside its half-court stays inside it, whatever the touches. */
  lemma {:induction false} TouchesMovedStaysInCourt(s: Sprite, side: Side, screen: Vec2, ts: seq<Touch>)
    requires CourtsNonEmpty(screen, s.radius)
    requires InCourt(side, screen, s.radius, s.nextPosition)
    ensures InCourt(side, screen, s.radius, TouchesMoved(s, side, screen, ts).nextPosition)
    decreases |ts|
  {
    if ts != [] {
      var prefix := ts[..|ts| - 1];
      TouchesMovedStaysInCourt(s, side, screen, prefix);
      TouchesMovedKeepsBody(s, side, screen, prefix);
    }
  }

  // ---------------------------------------------------------------- ended / cancelled

  /** One (touch, paddle) step of the touch-ended and touch-cancelled handlers. */
  function TouchReleased(s: Sprite, t: Touch): Sprite
  {
    if s.touch != None && s.touch == Some(t.id) then s.(touch := None, vector := Zero) else s
  }

  /** The touch-ended (or cancelled) handler, on one paddle, over all touches of the event. */
  function TouchesReleased(s: Sprite, ts: seq<Touch>): Sprite
    decreases |ts|
  {
    if ts == [] then s else TouchReleased(TouchesReleased(s, ts[..|ts| - 1]), ts[|ts| - 1])
  }

  /**
   * A paddle held by one of the released touches loses its touch and its
   * vector; every other paddle is left exactly as it was.
   */
  lemma {:induction false} TouchesReleasedExactly(s: Sprite, ts: seq<Touch>)
    ensures TouchesReleased(s, ts) ==
            if exists k :: 0 <= k < |ts| && Owns(s, ts[k]) then s.(touch := None, vector := Zero) else s
    decreases |ts|
  {
    if ts != [] {
      var prefix := ts[..|ts| - 1];
      TouchesReleasedExactly(s, prefix);
      if exists k :: 0 <= k < |prefix| && Owns(s, prefix[k]) {
        var k :| 0 <= k < |prefix| && Owns(s, prefix[k]);
        assert ts[k] == prefix[k];
      } else {
        forall k | 0 <= k < |ts| - 1 ensures !Owns(s, ts[k]) {
          assert ts[k] == prefix[k];
        }
      }
    }
  }

  /** Delivering the same end (or cancel) event twice has the effect of delivering it once. */
  lemma TouchesReleasedIdempotent(s: Sprite, ts: seq<Touch>)
    ensures TouchesReleased(TouchesReleased(s, ts), ts) == TouchesReleased(s, ts)
  {
    TouchesReleasedExactly(s, ts);
    TouchesReleasedExactly(TouchesReleased(s, ts), ts);
  }
}
