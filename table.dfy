/**
 * Fixed table geometry: an 800 x 400 playing surface with six pockets,
 * the four corners and the middle of each long side.
 */
module Table {
  const WIDTH: real := 800.0
  const HEIGHT: real := 400.0
  const POCKET_RADIUS: real := 25.0

  datatype Point = Point(x: real, y: real)

  /** The pockets in the order the source lists them. */
  const POCKETS: seq<Point> := [
    Point(0.0, 0.0), Point(WIDTH / 2.0, 0.0), Point(WIDTH, 0.0),
    Point(0.0, HEIGHT), Point(WIDTH / 2.0, HEIGHT), Point(WIDTH, HEIGHT)
  ]

  function Sq(v: real): real { v * v }

  /**
   * Pocket p captures a centre at (x, y) when the centre lies strictly
   * within POCKET_RADIUS of it. The comparison is made on squared
   * distances, which avoids the square root; see CapturesByDistance.
   */
  predicate Captures(p: Point, x: real, y: real) {
    Sq(x - p.x) + Sq(y - p.y) < Sq(POCKET_RADIUS)
  }

  /** Some pocket of ps captures (x, y): the pockets are tried in order, as the source's loop does. */
  predicate AnyCaptures(ps: seq<Point>, x: real, y: real)
    decreases |ps|
  {
    |ps| > 0 && (AnyCaptures(ps[..|ps| - 1], x, y) || Captures(ps[|ps| - 1], x, y))
  }

  /** The centre (x, y) is captured by one of the six pockets. */
  predicate InPocket(x: real, y: real) {
    AnyCaptures(POCKETS, x, y)
  }

  /** Trying one more pocket of the list. */
  lemma AnyCapturesNext(ps: seq<Point>, k: nat, x: real, y: real)
    requires k < |ps|
    ensures AnyCaptures(ps[..k + 1], x, y) <==> AnyCaptures(ps[..k], x, y) || Captures(ps[k], x, y)
  {
    assert ps[..k + 1][..k] == ps[..k];
  }

  /** AnyCaptures holds exactly when some pocket of the list captures the centre. */
  lemma {:induction false} AnyCapturesSome(ps: seq<Point>, x: real, y: real)
    ensures AnyCaptures(ps, x, y) <==> exists k :: 0 <= k < |ps| && Captures(ps[k], x, y)
    decreases |ps|
  {
    if |ps| > 0 {
      var init := ps[..|ps| - 1];
      AnyCapturesSome(init, x, y);
      if exists k :: 0 <= k < |ps| && Captures(ps[k], x, y) {
        var k :| 0 <= k < |ps| && Captures(ps[k], x, y);
        if k < |ps| - 1 {
          assert init[k] == ps[k];
        }
      }
      if exists k :: 0 <= k < |init| && Captures(init[k], x, y) {
        var k :| 0 <= k < |init| && Captures(init[k], x, y);
        assert ps[k] == init[k];
      }
    }
  }

  /** For non-negative a and b, a < b exactly when a * a < b * b. */
  lemma SquareMonotone(a: real, b: real)
    requires 0.0 <= a && 0.0 <= b
    ensures a < b <==> Sq(a) < Sq(b)
  {
    var aa, ab, bb := a * a, a * b, b * b;
    if a < b {
      assert aa <= ab;
      assert ab < bb;
    } else {
      assert bb <= ab;
      assert ab <= aa;
    }
  }

  /**
   * The squared comparison agrees with the source's test
   * `sqrt(dx*dx + dy*dy) < POCKET_RADIUS` for the true distance d.
   */
  lemma CapturesByDistance(p: Point, x: real, y: real, d: real)
    requires 0.0 <= d && Sq(d) == Sq(x - p.x) + Sq(y - p.y)
    ensures Captures(p, x, y) <==> d < POCKET_RADIUS
  {
    SquareMonotone(d, POCKET_RADIUS);
  }

  /** InPocket written out pocket by pocket. */
  lemma InPocketCases(x: real, y: real)
    ensures InPocket(x, y) <==>
      Captures(Point(0.0, 0.0), x, y) || Captures(Point(400.0, 0.0), x, y) ||
      Captures(Point(800.0, 0.0), x, y) || Captures(Point(0.0, 400.0), x, y) ||
      Captures(Point(400.0, 400.0), x, y) || Captures(Point(800.0, 400.0), x, y)
  {
    AnyCapturesSome(POCKETS, x, y);
    if InPocket(x, y) {
      var k :| 0 <= k < |POCKETS| && Captures(POCKETS[k], x, y);
      assert k == 0 || k == 1 || k == 2 || k == 3 || k == 4 || k == 5;
    } else {
      forall k | 0 <= k < |POCKETS| ensures !Captures(POCKETS[k], x, y) { }
      assert !Captures(POCKETS[0], x, y) && !Captures(POCKETS[1], x, y) && !Captures(POCKETS[2], x, y);
      assert !Captures(POCKETS[3], x, y) && !Captures(POCKETS[4], x, y) && !Captures(POCKETS[5], x, y);
    }
  }
}
