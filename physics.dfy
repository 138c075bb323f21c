/**
 * The per-frame ball update: integrate, reflect off the rails and clamp,
 * test the pockets, apply friction, snap slow balls to rest.
 */
module Physics {
  import opened Table
  import opened Balls

  const RESTITUTION: real := 0.8
  const FRICTION: real := 0.99
  const REST_SPEED: real := 0.1

  function Abs(v: real): real { if v < 0.0 then -v else v }
  function Min(a: real, b: real): real { if a <= b then a else b }
  function Max(a: real, b: real): real { if a >= b then a else b }

  /** `Math.max(lo, Math.min(hi, v))`. */
  function Clamp(v: real, lo: real, hi: real): (c: real)
    ensures lo <= hi ==> lo <= c <= hi
    ensures lo <= v <= hi ==> c == v
    ensures v <= lo ==> c == lo
    ensures lo <= hi && hi <= v ==> c == hi
  {
    Max(lo, Min(hi, v))
  }

  /** The wall test; touching the rail counts as a hit. */
  predicate HitsRail(p: real, r: real, extent: real) {
    p <= r || p >= extent - r
  }

  /** Position and velocity along one axis. */
  datatype Axis = Axis(pos: real, vel: real)

  /** The wall stage along one axis, for tentative position p and velocity v. */
  function Rail(p: real, v: real, r: real, extent: real): Axis {
    if HitsRail(p, r, extent) then Axis(Clamp(p, r, extent - r), -v * RESTITUTION) else Axis(p, v)
  }

  /** Both velocity components are below the rest threshold in magnitude. */
  predicate Slow(vx: real, vy: real) {
    Abs(vx) < REST_SPEED && Abs(vy) < REST_SPEED
  }

  /** The x and y axes after integration and the wall stage. */
  function ResolvedX(b: Ball): Axis { Rail(b.x + b.vx, b.vx, b.radius, WIDTH) }
  function ResolvedY(b: Ball): Axis { Rail(b.y + b.vy, b.vy, b.radius, HEIGHT) }

  /** Both components of the wall-resolved velocity, once damped by friction, are below the rest threshold. */
  predicate SnapsToRest(b: Ball) {
    Slow(ResolvedX(b).vel * FRICTION, ResolvedY(b).vel * FRICTION)
  }

  /**
   * One frame for one ball, stage by stage. A captured ball keeps its
   * pre-step position and its reflected, undamped velocity.
   */
  function StepBall(b: Ball): (r: Ball)
    ensures SameIdentity(b, r)
    ensures b.potted ==> r == b
    ensures b.potted ==> r.potted
    ensures r.potted && !b.potted ==> r.x == b.x && r.y == b.y
  {
    if b.potted then b
    else
      var ax, ay := ResolvedX(b), ResolvedY(b);
      if InPocket(ax.pos, ay.pos) then
        b.(vx := ax.vel, vy := ay.vel, potted := true)
      else
        var fx, fy := ax.vel * FRICTION, ay.vel * FRICTION;
        if Slow(fx, fy) then b.(x := ax.pos, y := ay.pos, vx := 0.0, vy := 0.0)
        else b.(x := ax.pos, y := ay.pos, vx := fx, vy := fy)
  }

  /**
   * The ball update as the frame callback runs it: local newX / newY,
   * velocity overwritten in place, an early return from the pocket loop.
   */
  method UpdateBall(ball: Ball) returns (r: Ball)
    ensures r == StepBall(ball)
  {
    if ball.potted {
      return ball;
    }
    var b := ball;
    var newX := b.x + b.vx;
    var newY := b.y + b.vy;

    if newX <= b.radius || newX >= WIDTH - b.radius {
      b := b.(vx := -b.vx * RESTITUTION);
      newX := Max(b.radius, Min(WIDTH - b.radius, newX));
    }
    if newY <= b.radius || newY >= HEIGHT - b.radius {
      b := b.(vy := -b.vy * RESTITUTION);
      newY := Max(b.radius, Min(HEIGHT - b.radius, newY));
    }
    ghost var ax, ay := ResolvedX(ball), ResolvedY(ball);
    assert newX == ax.pos && b.vx == ax.vel;
    assert newY == ay.pos && b.vy == ay.vel;
    assert b == ball.(vx := ax.vel, vy := ay.vel);

    for k := 0 to |POCKETS|
      invariant !AnyCaptures(POCKETS[..k], newX, newY)
    {
      var pocket := POCKETS[k];
      var dx := newX - pocket.x;
      var dy := newY - pocket.y;
      if Sq(dx) + Sq(dy) < Sq(POCKET_RADIUS) {
        AnyCapturesSome(POCKETS, newX, newY);
        return b.(potted := true);
      }
      AnyCapturesNext(POCKETS, k, newX, newY);
    }
    assert POCKETS[..|POCKETS|] == POCKETS;

    b := b.(vx := b.vx * FRICTION, vy := b.vy * FRICTION);
    if Abs(b.vx) < REST_SPEED && Abs(b.vy) < REST_SPEED {
      b := b.(vx := 0.0, vy := 0.0);
    }
    return b.(x := newX, y := newY);
  }

  /** One frame for the whole table: every ball independently, order and count kept. */
  function StepAll(s: seq<Ball>): (r: seq<Ball>)
    ensures |r| == |s|
    ensures forall i :: 0 <= i < |s| ==> r[i] == StepBall(s[i])
  {
    seq(|s|, i requires 0 <= i < |s| => StepBall(s[i]))
  }

  /** n consecutive frames for one ball. */
  function StepN(b: Ball, n: nat): Ball
    decreases n
  {
    if n == 0 then b else StepN(StepBall(b), n - 1)
  }

  /** A potted ball is never touched again, however many frames pass. */
  lemma {:induction false} PottedIsTerminal(b: Ball, n: nat)
    requires b.potted
    ensures StepN(b, n) == b
  {
    if n > 0 {
      PottedIsTerminal(StepBall(b), n - 1);
    }
  }

  /** After a frame a ball that stays on the table lies between the rails. */
  lemma StepStaysOnTable(b: Ball)
    requires FitsTable(b)
    ensures !StepBall(b).potted ==> OnTable(StepBall(b))
  {
  }

  /**
   * A ball whose tentative x touches or crosses a rail is pushed back to
   * exactly one radius from that rail, and its vx is reflected with
   * restitution 0.8; friction then makes it -0.792 * vx unless both damped
   * components fall below 0.1. A captured ball keeps the undamped -0.8 * vx.
   */
  lemma StepWallX(b: Ball)
    requires !b.potted && FitsTable(b) && HitsRail(b.x + b.vx, b.radius, WIDTH)
    ensures var r := StepBall(b);
      (r.potted ==> r.vx == -0.8 * b.vx) &&
      (!r.potted && !SnapsToRest(b) ==> r.vx == -0.792 * b.vx) &&
      (!r.potted && b.x + b.vx <= b.radius ==> r.x == b.radius) &&
      (!r.potted && b.x + b.vx >= WIDTH - b.radius ==> r.x == WIDTH - b.radius)
  {
  }

  /** The same along y, against the rails at 0 and 400. */
  lemma StepWallY(b: Ball)
    requires !b.potted && FitsTable(b) && HitsRail(b.y + b.vy, b.radius, HEIGHT)
    ensures var r := StepBall(b);
      (r.potted ==> r.vy == -0.8 * b.vy) &&
      (!r.potted && !SnapsToRest(b) ==> r.vy == -0.792 * b.vy) &&
      (!r.potted && b.y + b.vy <= b.radius ==> r.y == b.radius) &&
      (!r.potted && b.y + b.vy >= HEIGHT - b.radius ==> r.y == HEIGHT - b.radius)
  {
  }

  /** Away from the rails an axis just integrates, then friction damps it. */
  lemma StepFreeAxes(b: Ball)
    requires !b.potted && !StepBall(b).potted
    ensures !HitsRail(b.x + b.vx, b.radius, WIDTH) ==>
      StepBall(b).x == b.x + b.vx && (!SnapsToRest(b) ==> StepBall(b).vx == 0.99 * b.vx)
    ensures !HitsRail(b.y + b.vy, b.radius, HEIGHT) ==>
      StepBall(b).y == b.y + b.vy && (!SnapsToRest(b) ==> StepBall(b).vy == 0.99 * b.vy)
  {
  }

  /**
   * Friction and the stop rule: a ball left on the table comes to rest
   * exactly when both damped components are below 0.1; otherwise it keeps
   * exactly the damped velocity.
   */
  lemma StepFriction(b: Ball)
    requires !b.potted && !StepBall(b).potted
    ensures AtRest(StepBall(b)) <==> SnapsToRest(b)
    ensures !SnapsToRest(b) ==>
      StepBall(b).vx == ResolvedX(b).vel * FRICTION && StepBall(b).vy == ResolvedY(b).vel * FRICTION
  {
  }

  /**
   * The pocket stage: an unpotted ball becomes potted exactly when its
   * resolved centre lies strictly within 25 of some pocket, and then keeps
   * its pre-step position.
   */
  lemma StepCapture(b: Ball)
    requires !b.potted
    ensures StepBall(b).potted <==> InPocket(ResolvedX(b).pos, ResolvedY(b).pos)
    ensures StepBall(b).potted ==>
      StepBall(b).x == b.x && StepBall(b).y == b.y &&
      StepBall(b).vx == ResolvedX(b).vel && StepBall(b).vy == ResolvedY(b).vel
  {
  }

  /** A ball left on the table is either at rest or moving at 0.1 or more along some axis. */
  lemma StepRestGap(b: Ball)
    ensures var r := StepBall(b);
      !r.potted ==> AtRest(r) || Abs(r.vx) >= REST_SPEED || Abs(r.vy) >= REST_SPEED
  {
  }

  /** No frame speeds a ball up along either axis. */
  lemma StepSlowsDown(b: Ball)
    ensures Abs(StepBall(b).vx) <= Abs(b.vx) && Abs(StepBall(b).vy) <= Abs(b.vy)
  {
  }

  /** A ball at rest on the table and outside every pocket is a fixed point of the step. */
  lemma RestIsFixed(b: Ball)
    requires !b.potted && AtRest(b) && OnTable(b) && !InPocket(b.x, b.y)
    ensures StepBall(b) == b
  {
  }

  /** ... and so stays exactly where it is on every later frame. */
  lemma {:induction false} RestStays(b: Ball, n: nat)
    requires !b.potted && AtRest(b) && OnTable(b) && !InPocket(b.x, b.y)
    ensures StepN(b, n) == b
  {
    if n > 0 {
      RestIsFixed(b);
      RestStays(b, n - 1);
    }
  }
}
