/**
 * The pool-table component's state as one object: the balls live in an
 * array that the frame step and the release handler update in place;
 * turn, aim and drag are fields. Each handler is proved to perform the
 * corresponding transition of the Controller module on State().
 */
module PoolTable {
  import opened Table
  import opened Balls
  import opened Physics
  import opened Rack
  import opened Controller

  class Session {
    var balls: array<Ball>
    var currentPlayer: Player
    var isAiming: bool
    var aimAngle: real
    var aimPower: real
    var isDragging: bool
    var dragStart: Point

    /** The session seen as a value. */
    function State(): GameState
      reads this, balls
    {
      GameState(balls[..], currentPlayer, isAiming, aimAngle, aimPower, isDragging, dragStart)
    }

    /** A session with the rack on the table and player 1 to move. */
    constructor ()
      ensures fresh(balls)
      ensures IsInitialRack(balls[..]) && State() == Initial(balls[..])
      ensures Sane(State())
    {
      var rack := BuildRack();
      balls := new Ball[|rack|](i requires 0 <= i < |rack| => rack[i]);
      currentPlayer := 1;
      isAiming := false;
      aimAngle := 0.0;
      aimPower := 0.0;
      isDragging := false;
      dragStart := Point(0.0, 0.0);
      new;
      assert balls[..] == rack;
      InitialSane(rack);
    }

    /** Press at (x, y). */
    method MouseDown(x: real, y: real)
      modifies this
      ensures balls == old(balls)
      ensures State() == Controller.MouseDown(old(State()), x, y)
    {
      isDragging := true;
      dragStart := Point(x, y);
      isAiming := true;
    }

    /** Move to (x, y); d is the drag distance the handler takes the square root for. */
    method MouseMove(x: real, y: real, atan2: (real, real) -> real, d: real)
      requires IsDragDistance(State(), x, y, d)
      modifies this
      ensures balls == old(balls)
      ensures State() == Controller.MouseMove(old(State()), x, y, atan2, d)
    {
      if !isDragging {
        return;
      }
      var cue := FindCue(balls[..]);
      if cue.None? {
        return;
      }
      var cueBall := balls[cue.value];
      aimAngle := atan2(y - cueBall.y, x - cueBall.x);
      aimPower := Power(d);
    }

    /** Release: shoot the live cue ball, if any, in place, and pass the turn. */
    method MouseUp(cos: real -> real, sin: real -> real)
      modifies this, balls
      ensures balls == old(balls)
      ensures State() == Controller.MouseUp(old(State()), cos, sin)
    {
      if !isDragging {
        return;
      }
      ghost var before := balls[..];
      isDragging := false;
      var cue := FindCue(balls[..]);
      if cue.Some? {
        var i := cue.value;
        balls[i] := Shoot(balls[i], aimAngle, aimPower, cos, sin);
        assert balls[..] == before[i := Shoot(before[i], aimAngle, aimPower, cos, sin)];
      }
      isAiming := false;
      currentPlayer := Other(currentPlayer);
    }

    /** One animation frame: every ball is replaced by its updated copy, in order. */
    method Step()
      modifies balls
      ensures State() == Tick(old(State()))
    {
      for i := 0 to balls.Length
        invariant forall j :: 0 <= j < i ==> balls[j] == StepBall(old(balls[j]))
        invariant forall j :: i <= j < balls.Length ==> balls[j] == old(balls[j])
      {
        var b := UpdateBall(balls[i]);
        balls[i] := b;
      }
      assert balls[..] == StepAll(old(balls[..]));
    }
  }
}
