/**
 * The initial rack: the cue ball at (200, 200) and eight numbered balls
 * laid out in rows of three from the rack anchor (600, 200).
 */
module Rack {
  import opened Options
  import opened Table
  import opened Balls

  const BALL_RADIUS: real := 10.0
  const CUE_X: real := 200.0
  const RACK_X: real := 600.0
  const RACK_Y: real := HEIGHT / 2.0
  const SPACING: real := 22.0
  const BALL_COLORS: seq<string> :=
    ["#ffff00", "#0000ff", "#ff0000", "#800080", "#ffa500", "#008000", "#8b4513", "#000000"]

  /** Centre of the ball numbered n (1..8): row (n - 1) / 3, column (n - 1) % 3. */
  function SlotX(n: int): real { RACK_X + SPACING * (((n - 1) / 3) as real) }
  function SlotY(n: int): real { RACK_Y + SPACING * (((n - 1) % 3 - 1) as real) }

  /** The ball numbered n (1..8) as the rack places it. */
  predicate RackedAt(b: Ball, n: int)
    requires 1 <= n <= 8
  {
    b.id == n && b.number == Some(n) && !b.potted && AtRest(b) &&
    b.radius == BALL_RADIUS && b.color == BALL_COLORS[n - 1] &&
    b.kind == (if n == 8 then Black else if n <= 4 then Solid else Stripe) &&
    b.x == SlotX(n) && b.y == SlotY(n)
  }

  /** The nine balls a session starts with, in order of id. */
  predicate IsInitialRack(balls: seq<Ball>) {
    |balls| == 9 &&
    balls[0] == Ball(0, 200.0, 200.0, 0.0, 0.0, 10.0, "#ffffff", Cue, None, false) &&
    forall n :: 1 <= n < 9 ==> RackedAt(balls[n], n)
  }

  /** Builds the rack the way the session's start-up effect does: one push per ball. */
  method BuildRack() returns (balls: seq<Ball>)
    ensures IsInitialRack(balls)
  {
    balls := [Ball(0, CUE_X, HEIGHT / 2.0, 0.0, 0.0, BALL_RADIUS, "#ffffff", Cue, None, false)];
    for i := 0 to 8
      invariant |balls| == i + 1
      invariant balls[0] == Ball(0, 200.0, 200.0, 0.0, 0.0, 10.0, "#ffffff", Cue, None, false)
      invariant forall n :: 1 <= n <= i ==> RackedAt(balls[n], n)
    {
      var row := i / 3;
      var col := i % 3;
      var kind := if i == 7 then Black else if i < 4 then Solid else Stripe;
      balls := balls + [Ball(i + 1,
                             RACK_X + (row as real) * SPACING,
                             RACK_Y + ((col - 1) as real) * SPACING,
                             0.0, 0.0, BALL_RADIUS, BALL_COLORS[i], kind, Some(i + 1), false)];
    }
  }

  /** The slot of ball n, written out. */
  lemma SlotValues(n: int)
    requires 1 <= n <= 8
    ensures n == 1 ==> SlotX(n) == 600.0 && SlotY(n) == 178.0
    ensures n == 2 ==> SlotX(n) == 600.0 && SlotY(n) == 200.0
    ensures n == 3 ==> SlotX(n) == 600.0 && SlotY(n) == 222.0
    ensures n == 4 ==> SlotX(n) == 622.0 && SlotY(n) == 178.0
    ensures n == 5 ==> SlotX(n) == 622.0 && SlotY(n) == 200.0
    ensures n == 6 ==> SlotX(n) == 622.0 && SlotY(n) == 222.0
    ensures n == 7 ==> SlotX(n) == 644.0 && SlotY(n) == 178.0
    ensures n == 8 ==> SlotX(n) == 644.0 && SlotY(n) == 200.0
  {
  }

  lemma SlotsClear()
    ensures !InPocket(600.0, 178.0) && !InPocket(600.0, 200.0) && !InPocket(600.0, 222.0)
    ensures !InPocket(622.0, 178.0) && !InPocket(622.0, 200.0) && !InPocket(622.0, 222.0)
    ensures !InPocket(644.0, 178.0) && !InPocket(644.0, 200.0)
  {
    InPocketCases(600.0, 178.0); InPocketCases(600.0, 200.0); InPocketCases(600.0, 222.0);
    InPocketCases(622.0, 178.0); InPocketCases(622.0, 200.0); InPocketCases(622.0, 222.0);
    InPocketCases(644.0, 178.0); InPocketCases(644.0, 200.0);
  }

  /** Every slot lies on the table, clear of the rails and outside every pocket. */
  lemma SlotClear(n: int)
    requires 1 <= n <= 8
    ensures 600.0 <= SlotX(n) <= 644.0 && 178.0 <= SlotY(n) <= 222.0
    ensures !InPocket(SlotX(n), SlotY(n))
  {
    SlotValues(n);
    SlotsClear();
  }

  /** The cue ball's starting point is in no pocket. */
  lemma CueSpotClear()
    ensures !InPocket(200.0, 200.0)
  {
    InPocketCases(200.0, 200.0);
  }

  /** No two balls of the rack overlap: their centres are at least two radii apart. */
  lemma RackApart(balls: seq<Ball>)
    requires IsInitialRack(balls)
    ensures forall i, j :: 0 <= i < j < 9 ==>
      Sq(balls[i].x - balls[j].x) + Sq(balls[i].y - balls[j].y) >= Sq(balls[i].radius + balls[j].radius)
  {
    forall i, j | 0 <= i < j < 9
      ensures Sq(balls[i].x - balls[j].x) + Sq(balls[i].y - balls[j].y) >= Sq(balls[i].radius + balls[j].radius)
    {
      SlotValues(j);
      if i == 0 {
        var dx, dy := balls[j].x - balls[i].x, balls[i].y - balls[j].y;
        assert 400.0 <= dx;
        SquareMonotone(20.0, dx);
        assert 0.0 <= Sq(dy) by { assert 0.0 <= dy * dy; }
        assert Sq(balls[i].x - balls[j].x) == Sq(dx);
      } else {
        SlotValues(i);
      }
    }
  }

  /**
   * What the start of a session guarantees: nine unpotted balls at rest,
   * ids 0..8 in order, all of radius 10, inside the table and outside
   * every pocket; ball 0 is the only cue ball; no two balls overlap.
   */
  lemma RackFacts(balls: seq<Ball>)
    requires IsInitialRack(balls)
    ensures |balls| == 9
    ensures forall i :: 0 <= i < 9 ==>
      balls[i].id == i && !balls[i].potted && AtRest(balls[i]) && balls[i].radius == 10.0 &&
      OnTable(balls[i]) && FitsTable(balls[i]) && !InPocket(balls[i].x, balls[i].y)
    ensures forall i :: 0 <= i < 9 ==> (balls[i].kind == Cue <==> i == 0)
    ensures IsLiveCue(balls[0]) && balls[0].x == 200.0 && balls[0].y == 200.0
    ensures forall i, j :: 0 <= i < j < 9 ==>
      Sq(balls[i].x - balls[j].x) + Sq(balls[i].y - balls[j].y) >= Sq(balls[i].radius + balls[j].radius)
  {
    CueSpotClear();
    forall n | 1 <= n < 9
      ensures OnTable(balls[n]) && !InPocket(balls[n].x, balls[n].y)
    {
      SlotClear(n);
    }
    RackApart(balls);
  }
}
