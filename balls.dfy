/** The ball record and the predicates that the physics and the rack talk about. */
module Balls {
  import opened Options
  import opened Table

  datatype Kind = Cue | Solid | Stripe | Black

  /**
   * One ball: position, velocity, fixed radius, display colour, category,
   * optional visible number (absent on the cue ball) and the potted flag.
   */
  datatype Ball = Ball(
    id: int,
    x: real, y: real,
    vx: real, vy: real,
    radius: real,
    color: string,
    kind: Kind,
    number: Option<int>,
    potted: bool)

  /** Everything about a ball that no operation may change. */
  predicate SameIdentity(a: Ball, b: Ball) {
    a.id == b.id && a.radius == b.radius && a.color == b.color &&
    a.kind == b.kind && a.number == b.number
  }

  predicate AtRest(b: Ball) { b.vx == 0.0 && b.vy == 0.0 }

  /** The ball's centre keeps at least its radius away from every rail. */
  predicate OnTable(b: Ball) {
    b.radius <= b.x <= WIDTH - b.radius && b.radius <= b.y <= HEIGHT - b.radius
  }

  /** The ball is small enough to fit between the two long rails. */
  predicate FitsTable(b: Ball) { b.radius <= HEIGHT / 2.0 }

  /** The cue ball the controller acts on: tagged `cue` and still on the table. */
  predicate IsLiveCue(b: Ball) { b.kind == Cue && !b.potted }
}
