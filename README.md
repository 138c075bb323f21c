# Pool table simulation core, modelled in Dafny

This project models the simulation core of a two-player, turn-based pool
game. The core lives in one React component, `PoolTable`. The model covers
four parts of it:

- **The rack.** A session starts with nine balls: the cue ball at (200, 200)
  and eight numbered balls laid out in rows of three from the anchor (600, 200).
- **The frame step.** Each call of the frame callback sends every ball still
  in play through five stages, in this order:
  1. integrate: position += velocity;
  2. bounce off a rail with restitution 0.8, then clamp between the rails;
  3. check the six pockets, each with capture radius 25;
  4. apply friction ×0.99;
  5. snap to rest once both velocity components are below 0.1.
- **The shot/turn controller.** Press starts aiming. Moving while pressed sets
  the aim angle and the power `min(drag / 100, 2)`. Release shoots the cue
  ball at `power × 15` and passes the turn to the other player.
- **The session object.** It holds the balls in an array and the turn, aim and
  drag state in fields. Its handlers update that state in place.

Modules, one per concept:

- `Options`: the optional value. It is used for a ball's number and for the
  result of a search.
- `Table`: the 800 × 400 geometry, the six pockets and the capture test. The
  test compares squared distances, and a lemma shows this matches comparing
  the square-root distance.
- `Balls`: the `Ball` record and the predicates the other modules share:
  on-table, at rest, identity, live cue ball.
- `Rack`: `BuildRack`, the start-up push loop, and what the rack guarantees.
- `Physics`: `StepBall`, the frame step for one ball written as its stages,
  and `UpdateBall`, the same update written as the handler runs it. The
  handler's version has local `newX`/`newY`, a velocity overwritten in place,
  and an early return from the pocket loop. The method is proved equal to the
  function. This module also has `StepAll` and the lemmas about the step.
- `Controller`: the whole game state as a value (`GameState`) and its
  transitions `MouseDown`, `MouseMove`, `MouseUp` and `Tick`, plus the
  invariant `Sane` that they keep and the turn-alternation lemma.
- `PoolTable`: the class `Session`. Its fields are the component's state, with
  `balls: array<Ball>`. Each handler method is proved to perform the matching
  `Controller` transition on `State()`.

Modelling decisions:

- Numbers are Dafny `real`s, so all arithmetic is exact.
- `Math.sqrt` is never called.
  - The pocket test compares `dx*dx + dy*dy` with `25*25`.
    `Table.CapturesByDistance` proves this is the same as `distance < 25`.
  - The drag distance is an input `d`. Its precondition makes it the true
    Euclidean distance: `d >= 0` and `d*d == dx*dx + dy*dy`.
- `Math.atan2`, `Math.cos` and `Math.sin` are function-valued parameters, so
  they stay uninterpreted.
- The pointer position is plain real inputs. Mouse-leave calls the same
  handler as mouse-up.

Behaviour of the code that the model keeps as written:

- Release clears only `isAiming` and ends the drag; `aimAngle` and
  `aimPower` keep their values (src/components/PoolTable.tsx:273-277).
- A ball captured by a pocket is returned with its pre-step position and its
  rail-reflected velocity; friction is not applied to it
  (src/components/PoolTable.tsx:144-161).
- A shot at speed 15 along +x from (200, 200) does not stop before the right
  rail: with friction 0.99 it would coast about 1490 units, so it reaches
  x = 790 after about 50 steps and bounces.
  - `Controller.OpeningShot` proves the first step of that shot: (215, 200)
    with vx = 14.85.
  - Where the ball finally stops is not modelled.

## Model

| member | source | states |
|---|---|---|
| `Table.CapturesByDistance` | src/components/PoolTable.tsx:154-159 | For the true distance d ≥ 0 from a pocket, the squared-distance capture test holds exactly when d < 25, the source's `distance < pocketRadius` |
| `Table.AnyCapturesSome` | src/components/PoolTable.tsx:154-162 | The pocket scan reports a capture exactly when some pocket of the list captures the centre |
| `Table.AnyCapturesNext` | src/components/PoolTable.tsx:154-162 | Each further pocket the loop tries adds exactly its own capture test to what the pockets before it decided |
| `Table.InPocketCases` | src/components/PoolTable.tsx:119-126 | A centre is captured exactly when it lies strictly within 25 of one of (0,0), (400,0), (800,0), (0,400), (400,400), (800,400) |
| `Rack.BuildRack` | src/components/PoolTable.tsx:50-89 | The push loop produces the rack: ball 0 is the white cue ball at (200, 200) with no number. Ball n (1..8) has id and number n, row (n-1)/3 and column (n-1)%3 placed 22 apart from (600, 200), colour n-1 of the palette, kind solid for 1-4, stripe for 5-7 and black for 8. All are at rest, unpotted and of radius 10 |
| `Rack.RackFacts` | src/components/PoolTable.tsx:54-86 | The initial rack has 9 unpotted balls at rest with ids 0..8 in order, all of radius 10. All lie between the rails and outside every pocket. Ball 0 is the only cue ball, live, at (200, 200). No two balls overlap |
| `Physics.Clamp` | src/components/PoolTable.tsx:146 | `max(lo, min(hi, v))` lies in [lo, hi] when lo ≤ hi, leaves values in range unchanged, and maps values at or past a bound to that bound |
| `Physics.StepBall` | src/components/PoolTable.tsx:137-175 | One frame keeps a ball's id, radius, colour, kind and number. A potted ball comes back unchanged and stays potted. A ball captured this frame keeps its pre-step x, y |
| `Physics.UpdateBall` | src/components/PoolTable.tsx:138-174 | The imperative update (locals newX/newY, in-place velocity writes, the loop over the pockets with early return) computes exactly StepBall |
| `Physics.StepAll` | src/components/PoolTable.tsx:136-178 | A frame maps every ball independently: same number and order of balls, ball i becomes StepBall of ball i |
| `Physics.PottedIsTerminal` | src/components/PoolTable.tsx:138 | A potted ball is unchanged by any number of frames, so potted never reverts to false |
| `Physics.StepStaysOnTable` | src/components/PoolTable.tsx:140-151 | After a frame, a ball left in play satisfies radius ≤ x ≤ 800 − radius and radius ≤ y ≤ 400 − radius (for radius ≤ 200) |
| `Physics.StepWallX` | src/components/PoolTable.tsx:144-147 | When the tentative x touches or crosses a rail, the ball ends exactly one radius from that rail. Its vx becomes −0.792·vx unless both damped components fall below 0.1. A ball captured in the same frame keeps the undamped −0.8·vx |
| `Physics.StepWallY` | src/components/PoolTable.tsx:148-151 | The same for y against the rails at 0 and 400; it is independent of the x axis, so both can fire in one frame |
| `Physics.StepFreeAxes` | src/components/PoolTable.tsx:140-141 | An axis that hits no rail just integrates (x + vx), and its velocity becomes 0.99·v unless both damped components fall below 0.1 |
| `Physics.StepFriction` | src/components/PoolTable.tsx:164-172 | A ball left on the table comes to rest exactly when both of its wall-resolved velocity components, damped by 0.99, are below 0.1 in magnitude; otherwise its velocity is exactly that damped velocity |
| `Physics.StepCapture` | src/components/PoolTable.tsx:153-162 | An unpotted ball becomes potted exactly when its rail-resolved centre lies strictly within 25 of a pocket. It then keeps its pre-step x, y and its reflected but undamped velocity |
| `Physics.StepRestGap` | src/components/PoolTable.tsx:168-172 | After a frame, a ball in play is either exactly at rest or has some velocity component with magnitude ≥ 0.1 |
| `Physics.StepSlowsDown` | src/components/PoolTable.tsx:165-166 | No frame increases the magnitude of either velocity component |
| `Physics.RestIsFixed` | src/components/PoolTable.tsx:140-174 | A ball at rest, between the rails and outside every pocket, is returned unchanged by a frame |
| `Physics.RestStays` | src/components/PoolTable.tsx:165-174 | Such a ball stays unchanged, same position and zero velocity, for any number of frames |
| `Controller.Other` | src/components/PoolTable.tsx:276 | The turn always passes to the other of the two players |
| `Controller.FlipsParity` | src/components/PoolTable.tsx:276 | After n hand-overs the turn is back with the starting player exactly when n is even |
| `Controller.Power` | src/components/PoolTable.tsx:251 | Power equals d/100 or 2, whichever is smaller. It is never above either, and never negative for d ≥ 0 |
| `Controller.PowerSaturates` | src/components/PoolTable.tsx:251 | Power is d/100 for 0 ≤ d ≤ 200, exactly 2 from 200 on, and always within [0, 2] for d ≥ 0 |
| `Controller.PowerMonotone` | src/components/PoolTable.tsx:251 | A longer drag never gives less power |
| `Controller.PowerSamples` | src/components/PoolTable.tsx:251 | Drags of 0, 50, 100, 250 and 1000 give powers 0, 0.5, 1, 2 and 2 |
| `Controller.FindCue` | src/components/PoolTable.tsx:246 | Finds the first ball that is tagged cue and unpotted. It returns none exactly when there is no such ball |
| `Controller.Initial` | src/components/PoolTable.tsx:31-43 | A session starts with the given rack, player 1 to move, nothing aimed or dragged, angle 0, power 0 and drag start (0, 0) |
| `Controller.MouseDown` | src/components/PoolTable.tsx:223-234 | Press always starts a drag at the pointer and turns aiming on; balls, turn, angle and power are untouched |
| `Controller.MouseMove` | src/components/PoolTable.tsx:236-258 | While dragging with a live cue ball, the angle is atan2 from the cue ball to the pointer and the power is Power(d), within [0, 2]. Without a drag or without a live cue ball nothing changes. Balls, turn and drag are never changed |
| `Controller.Shoot` | src/components/PoolTable.tsx:267-270 | The cue ball's velocity is overwritten with (cos a, sin a)·power·15; position, identity and potted flag are kept |
| `Controller.MouseUp` | src/components/PoolTable.tsx:260-278 | Release without a drag changes nothing. Release while dragging ends the drag and the aiming and hands the turn to the other player, with or without a cue ball. Only the first live cue ball changes, and only in velocity. Angle, power and drag start are kept |
| `Controller.Tick` | src/components/PoolTable.tsx:136-178 | A frame steps every ball, keeps every ball's identity, leaves potted balls untouched, and does not change turn, aim or drag |
| `Controller.ShotsAlternate` | src/components/PoolTable.tsx:260-278 | After N press/release pairs the turn has been handed over N times (Flips), so the starting player is to move exactly when N is even, whatever the aim or cue ball. Afterwards nothing is aimed or dragged, and the ball count is unchanged |
| `Controller.InitialSane` | src/components/PoolTable.tsx:50-89 | The starting state satisfies the invariant: power in [0, 2], every ball fits the table, every ball in play lies between the rails |
| `Controller.MouseDownSane` | src/components/PoolTable.tsx:223-234 | Press keeps the invariant |
| `Controller.MouseMoveSane` | src/components/PoolTable.tsx:236-258 | Move keeps the invariant (in particular the power stays in [0, 2]) |
| `Controller.MouseUpSane` | src/components/PoolTable.tsx:260-278 | Release keeps the invariant |
| `Controller.TickSane` | src/components/PoolTable.tsx:136-178 | A frame keeps the invariant |
| `Controller.OpeningShot` | src/components/PoolTable.tsx:246-278 | The opening shot: press on the cue ball, drag 100 along +x for angle 0 and power 1, release. Player 2 is then to move and the cue ball has velocity (15, 0). One frame later it is at (215, 200) with vx 14.85 and still in play, and the object balls have not moved |
| `PoolTable.Session.constructor` | src/components/PoolTable.tsx:31-89 | A new session holds the initial rack in a fresh array, with player 1 to move, and satisfies the invariant |
| `PoolTable.Session.MouseDown` | src/components/PoolTable.tsx:223-234 | The handler performs Controller.MouseDown on the session's state |
| `PoolTable.Session.MouseMove` | src/components/PoolTable.tsx:236-258 | The handler performs Controller.MouseMove on the session's state |
| `PoolTable.Session.MouseUp` | src/components/PoolTable.tsx:260-278 | The handler updates the cue ball in the array in place and performs Controller.MouseUp on the session's state |
| `PoolTable.Session.Step` | src/components/PoolTable.tsx:136-178 | The loop over the array replaces every ball by UpdateBall of itself, and so performs Controller.Tick |

## Left out

- Drawing on the canvas is left out: the table, rails, engraving, pockets, balls, numbers and aim line (src/components/PoolTable.tsx:94-133, 180-215). It is rendering only.
- React plumbing is left out: `useState`, batching of `setGameState`, the `requestAnimationFrame` loop and its effect dependencies. Each frame is one explicit call to `Session.Step` or `Controller.Tick`. Every handler sees the latest state. The model does not capture the stale `gameState` and `isDragging` values a handler can read from an older render.
- The animation effect has no cleanup and re-runs whenever the ball list changes (src/components/PoolTable.tsx:92-221). Each re-run leaves one more `requestAnimationFrame` loop running, so the source steps the balls more and more often per displayed frame. The model's unit is one step: `Session.Step` or `Controller.Tick`.
- Aliasing between the old and the new state is left out. The source's update callback and release handler write `vx`/`vy` into ball objects that the previous state also holds. The model replaces each array element, so this sharing is not modelled.
- Pointer coordinates from `getBoundingClientRect` are left out; they are DOM input. The pointer position is given as real inputs.
- `Math.atan2`, `Math.cos` and `Math.sin` are function parameters with no properties. `Math.sqrt` is replaced by a precondition on the drag distance and by comparing squares. IEEE rounding is not modelled; all arithmetic is on exact reals.
- `score`, `gameOver` and `winner` are left out: the source never writes them. The "Reset Game" button is not connected to any handler.
- The state before the start-up effect runs, with an empty ball list, is left out. A `Session` is constructed with the rack already in place.
- The rest of the repository is not part of this model: the menu and page routing (src/pages/Index.tsx), the timed loading screen (src/components/LoadingScreen.tsx) and the avatar markup (src/components/PlayerAvatar.tsx).
