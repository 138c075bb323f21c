/**
 * The shot/turn controller over the whole game state: press starts
 * aiming, moving while pressed sets the aim, release shoots the cue ball
 * and hands the turn to the other player; a frame advances every ball.
 */
module Controller {
  import opened Options
  import opened Table
  import opened Balls
  import opened Physics
  import opened Rack

  type Player = p: int | p == 1 || p == 2 witness 1

  /** The player whose turn comes next. */
  function Other(p: Player): (q: Player)
    ensures q != p
  {
    if p == 1 then 2 else 1
  }

  /** The player to move after n hand-overs starting from p. */
  function Flips(p: Player, n: nat): Player
    decreases n
  {
    if n == 0 then p else Flips(Other(p), n - 1)
  }

  /** After n hand-overs the turn is back with p exactly when n is even. */
  lemma {:induction false} FlipsParity(p: Player, n: nat)
    ensures Flips(p, n) == if n % 2 == 0 then p else Other(p)
    decreases n
  {
    if n > 0 {
      FlipsParity(Other(p), n - 1);
    }
  }

  const MAX_POWER: real := 2.0
  /** Drag distance that gives one unit of power. */
  const POWER_SCALE: real := 100.0
  /** Speed per unit of power given to the cue ball at release. */
  const FORCE_SCALE: real := 15.0

  /** `Math.min(d / 100, 2)`: the least of d / 100 and 2. */
  function Power(d: real): (p: real)
    ensures p == d / POWER_SCALE || p == MAX_POWER
    ensures p <= d / POWER_SCALE && p <= MAX_POWER
    ensures 0.0 <= d ==> 0.0 <= p
  {
    Min(d / POWER_SCALE, MAX_POWER)
  }

  /** Power grows linearly up to a drag of 200 and is 2 from there on. */
  lemma PowerSaturates(d: real)
    ensures 0.0 <= d <= 200.0 ==> Power(d) == d / 100.0
    ensures 200.0 <= d ==> Power(d) == 2.0
    ensures 0.0 <= d ==> 0.0 <= Power(d) <= 2.0
  {
  }

  /** A longer drag never gives less power. */
  lemma PowerMonotone(d1: real, d2: real)
    requires d1 <= d2
    ensures Power(d1) <= Power(d2)
  {
  }

  /** Drags of 0, 50, 100, 250 and 1000 give powers 0, 0.5, 1, 2 and 2. */
  lemma PowerSamples()
    ensures Power(0.0) == 0.0 && Power(50.0) == 0.5 && Power(100.0) == 1.0
    ensures Power(250.0) == 2.0 && Power(1000.0) == 2.0
  {
  }

  /** `balls.find(b => b.type === 'cue' && !b.potted)`: the first live cue ball, if any. */
  function FindCue(s: seq<Ball>): (r: Option<nat>)
    ensures r.None? <==> forall i :: 0 <= i < |s| ==> !IsLiveCue(s[i])
    ensures r.Some? ==> r.value < |s| && IsLiveCue(s[r.value])
    ensures r.Some? ==> forall i :: 0 <= i < r.value ==> !IsLiveCue(s[i])
  {
    if s == [] then None
    else if IsLiveCue(s[0]) then Some(0)
    else match FindCue(s[1..])
      case None => None
      case Some(k) => Some(k + 1)
  }

  /**
   * The state the controller and the frame step share: the balls, whose
   * turn it is, the aim (flag, angle, power) and the drag in progress
   * (flag and the point where it started).
   */
  datatype GameState = GameState(
    balls: seq<Ball>,
    currentPlayer: Player,
    isAiming: bool,
    aimAngle: real,
    aimPower: real,
    isDragging: bool,
    dragStart: Point)

  /** The state once the rack is on the table: player 1 to move, nothing in progress. */
  function Initial(rack: seq<Ball>): (g: GameState)
    ensures g.balls == rack && g.currentPlayer == 1
    ensures !g.isAiming && !g.isDragging && g.aimPower == 0.0
    ensures g.aimAngle == 0.0 && g.dragStart == Point(0.0, 0.0)
  {
    GameState(rack, 1, false, 0.0, 0.0, false, Point(0.0, 0.0))
  }

  /** Press: always starts a drag at (x, y) and turns aiming on, even mid-drag. */
  function MouseDown(g: GameState, x: real, y: real): (h: GameState)
    ensures h.isDragging && h.isAiming && h.dragStart == Point(x, y)
    ensures h.balls == g.balls && h.currentPlayer == g.currentPlayer
    ensures h.aimAngle == g.aimAngle && h.aimPower == g.aimPower
  {
    g.(isDragging := true, dragStart := Point(x, y), isAiming := true)
  }

  /** d is the Euclidean distance from the drag start to (x, y). */
  predicate IsDragDistance(g: GameState, x: real, y: real, d: real) {
    0.0 <= d && Sq(d) == Sq(x - g.dragStart.x) + Sq(y - g.dragStart.y)
  }

  /**
   * Move to (x, y) while pressed: the aim points from the live cue ball
   * to the pointer and its power is Power(d) for the drag distance d.
   * Without a drag or without a live cue ball nothing changes.
   */
  function MouseMove(g: GameState, x: real, y: real, atan2: (real, real) -> real, d: real): (h: GameState)
    requires IsDragDistance(g, x, y, d)
    ensures !g.isDragging || FindCue(g.balls).None? ==> h == g
    ensures g.isDragging && FindCue(g.balls).Some? ==>
      var cue := g.balls[FindCue(g.balls).value];
      h.aimAngle == atan2(y - cue.y, x - cue.x) && h.aimPower == Power(d) && 0.0 <= h.aimPower <= MAX_POWER
    ensures h.balls == g.balls && h.currentPlayer == g.currentPlayer
    ensures h.isDragging == g.isDragging && h.isAiming == g.isAiming && h.dragStart == g.dragStart
  {
    if !g.isDragging then g
    else match FindCue(g.balls)
      case None => g
      case Some(i) =>
        g.(aimAngle := atan2(y - g.balls[i].y, x - g.balls[i].x), aimPower := Power(d))
  }

  /** t is s after a step in which no ball changed identity and no potted ball changed at all. */
  predicate Evolves(s: seq<Ball>, t: seq<Ball>) {
    |t| == |s| &&
    forall i :: 0 <= i < |s| ==> SameIdentity(s[i], t[i]) && (s[i].potted ==> t[i] == s[i])
  }

  /** The cue ball struck along angle a with the given power: its old velocity is overwritten. */
  function Shoot(b: Ball, a: real, power: real, cos: real -> real, sin: real -> real): (r: Ball)
    ensures r.vx == cos(a) * (power * FORCE_SCALE) && r.vy == sin(a) * (power * FORCE_SCALE)
    ensures r.x == b.x && r.y == b.y && r.potted == b.potted && SameIdentity(b, r)
  {
    var force := power * FORCE_SCALE;
    b.(vx := cos(a) * force, vy := sin(a) * force)
  }

  /**
   * Release (mouse up or pointer leaving the table) while pressed: the
   * live cue ball, if there is one, gets velocity (cos a, sin a) * power * 15
   * for the current aim, overwriting what it had; the drag and the aim
   * flag end and the turn passes to the other player whether or not a
   * cue ball was found. Release without a drag changes nothing.
   */
  function MouseUp(g: GameState, cos: real -> real, sin: real -> real): (h: GameState)
    ensures !g.isDragging ==> h == g
    ensures g.isDragging ==>
      !h.isDragging && !h.isAiming && h.currentPlayer == Other(g.currentPlayer)
    ensures h.aimAngle == g.aimAngle && h.aimPower == g.aimPower && h.dragStart == g.dragStart
    ensures Evolves(g.balls, h.balls)
    ensures forall i :: 0 <= i < |g.balls| && !(g.isDragging && FindCue(g.balls) == Some(i)) ==>
      h.balls[i] == g.balls[i]
    ensures g.isDragging && FindCue(g.balls).Some? ==>
      var i := FindCue(g.balls).value;
      var force := g.aimPower * FORCE_SCALE;
      h.balls[i].vx == cos(g.aimAngle) * force && h.balls[i].vy == sin(g.aimAngle) * force &&
      h.balls[i].x == g.balls[i].x && h.balls[i].y == g.balls[i].y && !h.balls[i].potted
  {
    if !g.isDragging then g
    else
      var balls := match FindCue(g.balls)
        case None => g.balls
        case Some(i) => g.balls[i := Shoot(g.balls[i], g.aimAngle, g.aimPower, cos, sin)];
      g.(balls := balls, isDragging := false, isAiming := false, currentPlayer := Other(g.currentPlayer))
  }

  /** One animation frame: every ball steps; turn, aim and drag are untouched. */
  function Tick(g: GameState): (h: GameState)
    ensures Evolves(g.balls, h.balls)
    ensures forall i :: 0 <= i < |g.balls| ==> h.balls[i] == StepBall(g.balls[i])
    ensures h.currentPlayer == g.currentPlayer && h.isAiming == g.isAiming && h.isDragging == g.isDragging
    ensures h.aimAngle == g.aimAngle && h.aimPower == g.aimPower && h.dragStart == g.dragStart
  {
    g.(balls := StepAll(g.balls))
  }

  /** One press immediately followed by a release, per point in presses. */
  function Shots(g: GameState, presses: seq<Point>, cos: real -> real, sin: real -> real): GameState
    decreases |presses|
  {
    if presses == [] then g
    else Shots(MouseUp(MouseDown(g, presses[0].x, presses[0].y), cos, sin), presses[1..], cos, sin)
  }

  /**
   * N press/release pairs hand the turn over N times: the starting player
   * moves again exactly when N is even, whatever the aim and whether or
   * not a cue ball exists; afterwards nothing is being aimed or dragged.
   */
  lemma {:induction false} ShotsAlternate(g: GameState, presses: seq<Point>, cos: real -> real, sin: real -> real)
    ensures var h := Shots(g, presses, cos, sin);
      h.currentPlayer == Flips(g.currentPlayer, |presses|) &&
      h.currentPlayer == (if |presses| % 2 == 0 then g.currentPlayer else Other(g.currentPlayer)) &&
      (presses != [] ==> !h.isAiming && !h.isDragging) &&
      |h.balls| == |g.balls|
    decreases |presses|
  {
    if presses != [] {
      var g' := MouseUp(MouseDown(g, presses[0].x, presses[0].y), cos, sin);
      ShotsAlternate(g', presses[1..], cos, sin);
    }
    FlipsParity(g.currentPlayer, |presses|);
  }

  /**
   * The invariant every operation keeps: aim power within [0, 2], every
   * ball narrow enough for the table, every ball still in play between
   * the rails.
   */
  predicate Sane(g: GameState) {
    0.0 <= g.aimPower <= MAX_POWER &&
    forall i :: 0 <= i < |g.balls| ==>
      FitsTable(g.balls[i]) && (!g.balls[i].potted ==> OnTable(g.balls[i]))
  }

  lemma InitialSane(rack: seq<Ball>)
    requires IsInitialRack(rack)
    ensures Sane(Initial(rack))
  {
    RackFacts(rack);
  }

  lemma MouseDownSane(g: GameState, x: real, y: real)
    requires Sane(g)
    ensures Sane(MouseDown(g, x, y))
  {
  }

  lemma MouseMoveSane(g: GameState, x: real, y: real, atan2: (real, real) -> real, d: real)
    requires Sane(g) && IsDragDistance(g, x, y, d)
    ensures Sane(MouseMove(g, x, y, atan2, d))
  {
  }

  lemma MouseUpSane(g: GameState, cos: real -> real, sin: real -> real)
    requires Sane(g)
    ensures Sane(MouseUp(g, cos, sin))
  {
  }

  lemma TickSane(g: GameState)
    requires Sane(g)
    ensures Sane(Tick(g))
  {
    forall i | 0 <= i < |g.balls|
      ensures !Tick(g).balls[i].potted ==> OnTable(Tick(g).balls[i])
    {
      StepStaysOnTable(g.balls[i]);
    }
  }

  /**
   * The opening shot: press on the cue ball, drag 100 straight along +x
   * (power 1, angle 0), release. Player 2 is then to move, the cue ball
   * has velocity (15, 0) and the next frame carries it to (215, 200) with
   * vx = 14.85; the object balls do not move.
   */
  lemma OpeningShot(rack: seq<Ball>, atan2: (real, real) -> real, cos: real -> real, sin: real -> real)
    requires IsInitialRack(rack)
    requires atan2(0.0, 100.0) == 0.0 && cos(0.0) == 1.0 && sin(0.0) == 0.0
    ensures var g1 := MouseDown(Initial(rack), 200.0, 200.0);
      IsDragDistance(g1, 300.0, 200.0, 100.0) &&
      var g2 := MouseMove(g1, 300.0, 200.0, atan2, 100.0);
      var g3 := MouseUp(g2, cos, sin);
      var g4 := Tick(g3);
      g3.currentPlayer == 2 && g3.balls[0].vx == 15.0 && g3.balls[0].vy == 0.0 &&
      g4.balls[0].x == 215.0 && g4.balls[0].y == 200.0 && g4.balls[0].vx == 14.85 &&
      g4.balls[0].vy == 0.0 && !g4.balls[0].potted &&
      forall i :: 1 <= i < 9 ==> g4.balls[i] == rack[i]
  {
    RackFacts(rack);
    var g1 := MouseDown(Initial(rack), 200.0, 200.0);
    assert FindCue(rack) == Some(0);
    var g2 := MouseMove(g1, 300.0, 200.0, atan2, 100.0);
    assert g2.aimAngle == 0.0 && g2.aimPower == 1.0;
    var g3 := MouseUp(g2, cos, sin);
    assert g3.balls[0] == rack[0].(vx := 15.0, vy := 0.0);
    InPocketCases(215.0, 200.0);
    assert StepBall(g3.balls[0]).x == 215.0;
    forall i | 1 <= i < 9
      ensures StepBall(g3.balls[i]) == rack[i]
    {
      RestIsFixed(rack[i]);
    }
  }
}
