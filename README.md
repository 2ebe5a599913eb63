# Newton's third law demo: strike sequencer and force formulas

This project models the logic inside `src/NewtonThirdLawSimulation.tsx`, a React
component with two teaching scenes for Newton's third law.

- **Hammer and nail.** A strike sequencer moves a hammer through the phases
  idle → down → contact → up → idle, once per animation frame. It lives in a
  mutable ref holding `hammerY`, `nailY`, `phase`, `contactTimer` and
  `targetNailY`. Beside it are the component state `isStriking` and
  `forceValue` and the mass and velocity sliders. Two buttons drive it from
  outside: Strike and Reset.
- **Earth and Moon.** A display "gravity" formula, the clamp on the length of
  the two force arrows, and an orbit angle that advances every frame.

Files:

- `rounding.dfy`: `Rounding`, JavaScript `Math.round` over exact reals (`floor(x + 0.5)`).
- `hammer_force.dfy`: `HammerForce`, the impulse force `round(m·v/0.01)`, the
  penetration depth `min(30, F/500)`, the arrow length `min(100, max(40, F/15))`,
  and the action/reaction arrow pair.
- `strike_sequencer.dfy`: `StrikeSequencer`, the whole hammer scene as a value
  (`Scene`). It has one frame of the phase-step (`Next`), the events (`Strike`,
  `Reset`, the sliders) and the invariant every reachable scene keeps (`Inv`).
  It also holds termination of a strike (`FramesToIdle`) and the full-cycle
  lemma (`StrikeCycle`).
- `hammer_nail_scene.dfy`: `HammerNail.HammerNailScene`, the component as a
  class whose fields are updated in place. Each method is proved to produce
  the state the matching `StrikeSequencer` function gives.
- `earth_moon.dfy`: `EarthMoon`, gravity, the radius-based arrow clamp, the
  orbit step, and the `EarthMoonScene` class that advances the angle.

Modelling choices:

- `hammerY` and `nailY` are integers, because the source only ever adds
  integers to them: 100 and 350 to start, `2·velocity`, 2 and 5.
- `targetNailY` is real, because `force/500` can be fractional (7.2 for the
  default sliders).
- All formulas are exact `int`/`real` arithmetic.
- React's asynchronous state setters are modelled as immediate updates.
- The canvas width enters only as the nail's x coordinate, a parameter of `Frame`.

Three consequences of the code:

- A finished strike does not bring back the pre-strike display. `forceValue`
  keeps the strike's force, so the force cards stay on screen until Reset.
  `StrikeCycle` states this.
- The nail moves in whole 2-pixel steps until it reaches its target. With the
  default sliders the depth is 7.2, but the nail moves 8 pixels (350 to 358;
  `DefaultStrike`). The move per strike is always below depth + 2, and never
  more than the 30-pixel cap.
- The nail never goes deeper than 390, the cap ten pixels above `GROUND_Y`,
  even though it moves in 2-pixel steps that could overshoot a target: it
  starts at 350 and stays even, so it never steps past the cap.

## Model

| member | source | states |
|---|---|---|
| `Rounding.Round` | src/NewtonThirdLawSimulation.tsx:366 | `Math.round(x)`: the integer within half a unit of `x`, halves rounded up; `RoundOfInt` shows it fixes integers, `RoundMonotone` that it is monotone |
| `HammerForce.ImpulseForce` | src/NewtonThirdLawSimulation.tsx:362-367 | `calculateForce`, `round(m·v/0.01)`: for integer mass and velocity it is exactly `100·m·v`; `ImpulseForceRange` bounds it over the sliders |
| `HammerForce.ImpulseForceRange` | src/NewtonThirdLawSimulation.tsx:362-367 | over the slider ranges 1..10 the force lies in [100, 10000] |
| `HammerForce.PenetrationDepth` | src/NewtonThirdLawSimulation.tsx:475 | the depth is at most both the 30-pixel cap and `force/500`, and equals one of them, so it is their minimum; it is non-negative for a non-negative force |
| `HammerForce.PenetrationDepthOfSliders` | src/NewtonThirdLawSimulation.tsx:475 | over the slider ranges the cap never applies: depth = `m·v/5` ≤ 20 |
| `HammerForce.HammerArrowLength` | src/NewtonThirdLawSimulation.tsx:513 | the arrow length lies in [40, 100], and equals `force/15` whenever that is in range |
| `HammerForce.HammerArrowMonotone` | src/NewtonThirdLawSimulation.tsx:513 | a larger force never draws a shorter arrow |
| `HammerForce.ForceArrows` | src/NewtonThirdLawSimulation.tsx:511-520 | the two arrows start level with the nail head, at `nailX + 50` and `nailX - 50`, and are vertical. Both have length `HammerArrowLength(force)`, in [40, 100], and point in opposite directions: F_H on the nail points down, F_N on the hammer points up |
| `StrikeSequencer.InitialInv` | src/NewtonThirdLawSimulation.tsx:351-357 | the mount state satisfies the sequencer invariant |
| `StrikeSequencer.InvNailBound` | src/NewtonThirdLawSimulation.tsx:476-483 | under the invariant the nail lies in [350, 390]; 390 is `GROUND_Y - 10`, the cap on the target |
| `StrikeSequencer.NextInv` | src/NewtonThirdLawSimulation.tsx:463-497 | one frame keeps the invariant. The invariant covers: the hammer–nail gap of 40 during contact; the hammer at rest when idle; `isStriking` exactly when not idle; the nail even, at least 350 and less than one step past a target ≤ 390; the force fixed during contact and up; enough contact frames left to reach the target |
| `StrikeSequencer.ApplyInv` | src/NewtonThirdLawSimulation.tsx:369-385 | each user event keeps the invariant: a frame, Strike, Reset, or a slider move within range |
| `StrikeSequencer.RunInv` | src/NewtonThirdLawSimulation.tsx:463-497 | any sequence of valid events keeps the invariant |
| `StrikeSequencer.NailStaysAboveGround` | src/NewtonThirdLawSimulation.tsx:476-483 | from mount, across any number of strikes, frames and slider moves, the nail stays in [350, 390], never past the `GROUND_Y - 10` cap |
| `StrikeSequencer.StrikeTarget` | src/NewtonThirdLawSimulation.tsx:475-476 | the nail's target after the hit, `min(390, nailY + depth)` with depth `PenetrationDepth(ImpulseForce(m, v))`: at most both sides and equal to one of them, so it is their minimum; never past 390, and for a non-negative force from a nail at or above 390, between the nail and 30 pixels below it; used by `Next` and `DownStep` |
| `StrikeSequencer.Next` | src/NewtonThirdLawSimulation.tsx:463-497 | one frame of the phase-step: an idle frame changes nothing; every frame keeps the phase or moves it one place along idle→down→contact→up→idle; the nail never rises; the sliders are untouched. Each phase's step is stated by `DownStep`, `ContactStep`, `UpStep`; `NextInv` keeps the invariant, `FramesToIdle` and `StrikeCycle` give termination and the full cycle |
| `StrikeSequencer.DownStep` | src/NewtonThirdLawSimulation.tsx:463-477 | the hammer falls `2·velocity`. On reaching `nailY-40` it snaps there and contact begins with timer 0 and force `100·m·v`. The target becomes `min(390, nailY + depth)`, which is ≤ 390 and ≤ nailY + 30 |
| `StrikeSequencer.ContactStep` | src/NewtonThirdLawSimulation.tsx:478-488 | the timer ticks by one. Hammer and nail move down by 2 together exactly when the nail is short of its target, so `hammerY = nailY - 40` is kept. The phase becomes up exactly when the timer exceeds 180 |
| `StrikeSequencer.UpStep` | src/NewtonThirdLawSimulation.tsx:489-497 | the hammer rises 5, clamped at 100; it goes idle, clearing `isStriking`, exactly when it reaches 100 |
| `StrikeSequencer.Strike` | src/NewtonThirdLawSimulation.tsx:369-373 | `handleStrike`: during a strike nothing changes; otherwise striking starts in phase down, and nothing but `phase` and `isStriking` changes; `StrikeGuard` adds what the invariant gives |
| `StrikeSequencer.StrikeGuard` | src/NewtonThirdLawSimulation.tsx:369-373 | under the invariant, a Strike when not striking starts from the hammer at rest in idle, and moves it to phase down with the hammer above the nail head |
| `StrikeSequencer.Reset` | src/NewtonThirdLawSimulation.tsx:375-385 | reset from any state gives exactly hammer 100, nail 350, idle, timer 0, target 350, force 0, not striking, with the sliders kept; `ApplyInv` shows the invariant holds after it |
| `StrikeSequencer.SetMass` | src/NewtonThirdLawSimulation.tsx:667-672 | the mass slider: it sets the mass, unless a strike is in progress, when nothing changes; no other field changes; `SlidersLocked` restates the lock, `ApplyInv` keeps the invariant |
| `StrikeSequencer.SetVelocity` | src/NewtonThirdLawSimulation.tsx:716-721 | the velocity slider, the same as `SetMass` for the velocity |
| `StrikeSequencer.SlidersLocked` | src/NewtonThirdLawSimulation.tsx:667-672 | while a strike is in progress, moving either slider changes nothing |
| `StrikeSequencer.NextDecreasesRank` | src/NewtonThirdLawSimulation.tsx:463-497 | every frame of a strike in progress strictly decreases a non-negative measure |
| `StrikeSequencer.FramesToIdle` | src/NewtonThirdLawSimulation.tsx:463-497 | a strike in progress ends: after the returned number of frames the sequencer is idle, and not before. That number is bounded by the measure |
| `StrikeSequencer.StrikeCycle` | src/NewtonThirdLawSimulation.tsx:463-497 | a full cycle from idle ends with the hammer at rest, not striking, the same sliders and force `100·m·v` shown, and `targetNailY` is `StrikeTarget` of the starting nail and sliders. The nail ends within one 2-pixel step past `min(390, nail0 + depth)` and at most 30 below where it began |
| `StrikeSequencer.DefaultStrike` | src/NewtonThirdLawSimulation.tsx:343-367 | with the default sliders 6 and 6, a strike from mount shows force 3600 and sets the target to 357.2 and leaves the nail at 358 |
| `HammerNail.HammerNailScene.constructor` | src/NewtonThirdLawSimulation.tsx:342-357 | mount state: sliders 6 and 6, hammer 100, nail 350, idle, invariant established |
| `HammerNail.HammerNailScene.CurrentForce` | src/NewtonThirdLawSimulation.tsx:362-367 | `calculateForce` on the current sliders is `100·mass·velocity`, in [100, 10000] |
| `HammerNail.HammerNailScene.Frame` | src/NewtonThirdLawSimulation.tsx:461-520 | the in-place phase-step leaves exactly the state `Next` gives and keeps the invariant. The two arrows are returned only in contact, anchored at the nail head as it was when the frame began, with the displayed force |
| `HammerNail.HammerNailScene.HandleStrike` | src/NewtonThirdLawSimulation.tsx:369-373 | equals `Strike`: nothing changes during a strike, otherwise striking starts in phase down |
| `HammerNail.HammerNailScene.Reset` | src/NewtonThirdLawSimulation.tsx:375-385 | the fields become exactly the mount state with the current sliders |
| `HammerNail.HammerNailScene.SetMass` | src/NewtonThirdLawSimulation.tsx:667-672 | the mass slider takes effect only when no strike is in progress |
| `HammerNail.HammerNailScene.SetVelocity` | src/NewtonThirdLawSimulation.tsx:716-721 | the velocity slider takes effect only when no strike is in progress |
| `EarthMoon.Gravity` | src/NewtonThirdLawSimulation.tsx:833-838 | `calculateGravity`, `round(100·m1·m2/(d/100)²)`: never negative for non-negative masses; `GravityExact`, `GravitySymmetric` and `GravityAntitoneInDistance` state its properties |
| `EarthMoon.GravityExact` | src/NewtonThirdLawSimulation.tsx:833-838 | `round(100·m1·m2/(d/100)²)` equals `round(10⁶·m1·m2/d²)` |
| `EarthMoon.GravitySymmetric` | src/NewtonThirdLawSimulation.tsx:833-838 | the formula is symmetric in the two masses: swapping them gives the same force |
| `EarthMoon.GravityAntitoneInDistance` | src/NewtonThirdLawSimulation.tsx:833-838 | a larger distance never gives a larger force |
| `EarthMoon.DefaultGravity` | src/NewtonThirdLawSimulation.tsx:825-838 | the defaults 8, 3, 220 give 496 |
| `EarthMoon.EarthRadius` | src/NewtonThirdLawSimulation.tsx:910 | the drawn Earth radius `25 + 3·m1`, in [28, 55] over the slider range |
| `EarthMoon.MoonRadius` | src/NewtonThirdLawSimulation.tsx:911 | the drawn Moon radius `12 + 2·m2`, in [14, 32] over the slider range |
| `EarthMoon.MaxArrowLength` | src/NewtonThirdLawSimulation.tsx:936 | the arrow cap: an arrow of this length plus both radii plus a 20-pixel gap spans the distance exactly; `MaxArrowLengthOfSliders` shows it is at least 13 |
| `EarthMoon.OrbitArrowLength` | src/NewtonThirdLawSimulation.tsx:936-937 | the arrow is at most both the gap cap and `max(35, F/8)`, and equals one of them, so it is their minimum. So the arrow plus both radii plus 20 fits in the distance, and it is at least 35 when the cap allows |
| `EarthMoon.MaxArrowLengthOfSliders` | src/NewtonThirdLawSimulation.tsx:910-937 | for m1, m2 in 1..10 and d in 120..350 the cap is at least 13, and so is the arrow |
| `EarthMoon.OrbitStep` | src/NewtonThirdLawSimulation.tsx:913 | the angle added each frame, `0.01/(d/200)`: positive for a positive distance; `OrbitStepValue` and `OrbitAngleClosedForm` state its value and accumulation |
| `EarthMoon.OrbitStepValue` | src/NewtonThirdLawSimulation.tsx:913 | the per-frame angle step is `2/d`: positive, and larger for closer orbits |
| `EarthMoon.OrbitAngleClosedForm` | src/NewtonThirdLawSimulation.tsx:913 | n frames at a fixed distance add exactly `n` steps, so the angle strictly increases |
| `EarthMoon.EarthMoonScene.constructor` | src/NewtonThirdLawSimulation.tsx:824-831 | mount state: masses 8 and 3, distance 220, angle 0 |
| `EarthMoon.EarthMoonScene.SetEarthMass` | src/NewtonThirdLawSimulation.tsx:1142-1145 | the Earth-mass slider sets only that value, within 1..10 |
| `EarthMoon.EarthMoonScene.SetMoonMass` | src/NewtonThirdLawSimulation.tsx:1190-1193 | the Moon-mass slider sets only that value, within 1..10 |
| `EarthMoon.EarthMoonScene.SetDistance` | src/NewtonThirdLawSimulation.tsx:1238-1241 | the distance slider sets only that value, within 120..350 |
| `EarthMoon.EarthMoonScene.Frame` | src/NewtonThirdLawSimulation.tsx:910-937 | one frame advances the angle by exactly `2/d` (strictly), which is one step of `OrbitAngle`, so `OrbitAngleClosedForm` gives the angle after n frames. It returns the gravity shown on both bodies, the same whichever body is first, and the arrow length `OrbitArrowLength` of that force: at least 13, leaving a 20-pixel gap between the bodies |

## Left out

- Canvas painting is not modelled: background, ground pattern, stars, gradients, the hammer and nail rectangles, and the arrow heads and labels drawn by `drawArrow`. `ForceArrows` and `EarthMoonScene.Frame` model only the geometry these calls receive.
- The Moon's coordinates and the Earth–Moon arrow directions are not modelled. They use `Math.cos`, `Math.sin` and `Math.atan2`, which are transcendental floating-point functions; only the shared arrow length is modelled.
- IEEE-754 double rounding is not modelled: all formulas use exact reals. Where a quotient lies exactly on a `.5` boundary, the double result could round the other way.
- The `requestAnimationFrame` loop and its `useEffect` teardown are not modelled; `Frame` models one call of the step. Both scenes stay mounted and keep their state while hidden.
- React renders and the asynchronous `setIsStriking` are not modelled; a closure could see a stale `isStriking` between a click and the next render. State updates are taken as immediate.
- Slide navigation, the hint and key-concept panels, chips and layout are not modelled; they are UI state with no bearing on the sequencer.
